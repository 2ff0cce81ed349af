/** What the generated plans promise: rotation order, disjoint random rounds, and who is paid how often. */
module Fairness {
  import opened Arith
  import opened Common
  import opened Scheduler

  function Flatten(rounds: seq<seq<MemberId>>): seq<MemberId> {
    if rounds == [] then [] else Flatten(rounds[..|rounds| - 1]) + rounds[|rounds| - 1]
  }

  /** The first `len` ids of the roster repeated for ever. */
  function Cyclic(ordered: seq<MemberId>, len: nat): (c: seq<MemberId>)
    requires ordered != []
    ensures |c| == len
  {
    seq(len, j requires 0 <= j => ordered[j % |ordered|])
  }

  /** Every roster member is paid exactly once over the plan. */
  ghost predicate PaysEachOnce(rounds: seq<seq<MemberId>>, ordered: seq<MemberId>) {
    forall x :: x in ordered ==> multiset(Flatten(rounds))[x] == 1
  }

  // ---- queue rotation ----

  lemma {:induction false} QueuePicksInOrder(ordered: seq<MemberId>, base: nat, t: nat)
    requires Distinct(ordered) && 1 <= |ordered| && t <= |ordered|
    ensures QueuePicks(ordered, base, t) == seq(t, j requires 0 <= j => ordered[(base + j) % |ordered|])
  {
    if t > 0 {
      QueuePicksInOrder(ordered, base, t - 1);
      var picks, id := QueuePicks(ordered, base, t - 1), ordered[(base + t - 1) % |ordered|];
      assert id !in picks by {
        forall j | 0 <= j < |picks| ensures picks[j] != id {
          RingSeparates(base + j, base + t - 1, |ordered|);
        }
      }
      assert QueuePicks(ordered, base, t) == picks + [id];
    }
  }

  lemma {:induction false} QueuePicksSaturate(ordered: seq<MemberId>, t: nat)
    requires Distinct(ordered) && 1 <= |ordered| <= t
    ensures QueuePicks(ordered, 0, t) == ordered
    decreases t
  {
    if t == |ordered| {
      QueuePicksInOrder(ordered, 0, t);
      forall j | 0 <= j < t ensures j % |ordered| == j { RingFirstLap(j, |ordered|); }
    } else {
      QueuePicksSaturate(ordered, t - 1);
    }
  }

  lemma QueuePicksAreSlice(ordered: seq<MemberId>, base: nat, k: nat)
    requires Distinct(ordered) && 1 <= k <= |ordered|
    ensures QueuePicks(ordered, base, k) == Cyclic(ordered, base + k)[base..]
    ensures Distinct(QueuePicks(ordered, base, k))
  {
    QueuePicksInOrder(ordered, base, k);
    var r := QueuePicks(ordered, base, k);
    forall a, b | 0 <= a < b < k ensures r[a] != r[b] {
      RingSeparates(base + a, base + b, |ordered|);
    }
  }

  lemma QueueRoundIsRotation(ordered: seq<MemberId>, k: nat, prev: set<MemberId>, clock: nat -> nat, i: nat)
    requires Distinct(ordered) && 1 <= k <= |ordered|
    ensures PlannedRound(ordered, k, Queue, prev, clock, i) == Cyclic(ordered, i * k + k)[i * k..]
    ensures Distinct(PlannedRound(ordered, k, Queue, prev, clock, i))
  {
    QueuePicksAreSlice(ordered, i * k, k);
  }

  lemma {:induction false} QueuePrefixIsRotation(ordered: seq<MemberId>, k: nat, prev: set<MemberId>, clock: nat -> nat,
                                                 i: nat)
    requires Distinct(ordered) && 1 <= k <= |ordered| && i <= RoundsCount(|ordered|, k)
    ensures Flatten(Plan(ordered, k, Queue, prev, clock)[..i]) == Cyclic(ordered, i * k)
  {
    var plan := Plan(ordered, k, Queue, prev, clock);
    if i > 0 {
      QueuePrefixIsRotation(ordered, k, prev, clock, i - 1);
      QueueRoundIsRotation(ordered, k, prev, clock, i - 1);
      assert plan[..i][..i - 1] == plan[..i - 1];
      MulStep(i, k);
      CyclicSplit(ordered, (i - 1) * k, i * k);
    }
  }

  lemma CyclicSplit(ordered: seq<MemberId>, a: nat, b: nat)
    requires ordered != [] && a <= b
    ensures Cyclic(ordered, b) == Cyclic(ordered, a) + Cyclic(ordered, b)[a..]
  {
  }

  lemma CyclicUnrolls(ordered: seq<MemberId>, len: nat)
    requires ordered != [] && |ordered| <= len < 2 * |ordered|
    ensures Cyclic(ordered, len) == ordered + ordered[..len - |ordered|]
  {
    forall j | 0 <= j < len ensures j % |ordered| == if j < |ordered| then j else j - |ordered| {
      RingFirstLap(j, |ordered|);
    }
  }

  /** The queue plan is the position-ordered roster, once round and then its first R*k - n places again. */
  lemma QueuePlanIsRotation(ordered: seq<MemberId>, k: nat, prev: set<MemberId>, clock: nat -> nat)
    requires Distinct(ordered) && 1 <= |ordered| && 1 <= k
    ensures var flat, n := Flatten(Plan(ordered, k, Queue, prev, clock)), |ordered|;
      && (k <= n ==> 0 <= RoundsCount(n, k) * k - n < k
                     && flat == Cyclic(ordered, RoundsCount(n, k) * k)
                     && flat == ordered + ordered[..RoundsCount(n, k) * k - n])
      && (k > n ==> RoundsCount(n, k) == 1 && flat == ordered)
  {
    var n, r := |ordered|, RoundsCount(|ordered|, k);
    var plan := Plan(ordered, k, Queue, prev, clock);
    assert plan[..r] == plan;
    CeilOne(n, k, r);
    MulStep(r, k);
    if k <= n {
      QueuePrefixIsRotation(ordered, k, prev, clock, r);
      CyclicUnrolls(ordered, r * k);
    } else {
      QueuePicksSaturate(ordered, k);
      assert plan == [ordered];
      assert Flatten(plan) == Flatten([]) + ordered;
    }
  }

  /** Index p of the roster is paid once, and once more exactly when it lies in the wrapped-around tail. */
  lemma QueuePaymentCount(ordered: seq<MemberId>, k: nat, prev: set<MemberId>, clock: nat -> nat, p: nat)
    requires Distinct(ordered) && p < |ordered| && 1 <= k <= |ordered|
    ensures multiset(Flatten(Plan(ordered, k, Queue, prev, clock)))[ordered[p]]
            == 1 + if p < RoundsCount(|ordered|, k) * k - |ordered| then 1 else 0
  {
    QueuePlanIsRotation(ordered, k, prev, clock);
    var extra := RoundsCount(|ordered|, k) * k - |ordered|;
    var tail := ordered[..extra];
    DistinctIffMultiplicityOne(ordered);
    DistinctIffMultiplicityOne(tail);
    assert multiset(ordered + tail) == multiset(ordered) + multiset(tail);
    assert ordered[p] in tail <==> p < extra by {
      if ordered[p] in tail { var q :| 0 <= q < extra && tail[q] == ordered[p]; }
      if p < extra { assert tail[p] == ordered[p]; }
    }
  }

  // ---- random draws ----

  lemma {:induction false} UnassignedFacts(ordered: seq<MemberId>, taken: set<MemberId>)
    requires Distinct(ordered)
    ensures var pool := Unassigned(ordered, taken);
      Distinct(pool) && Elements(pool) == Elements(ordered) - taken && |pool| <= |ordered|
  {
    if ordered != [] {
      var front, last := ordered[..|ordered| - 1], ordered[|ordered| - 1];
      UnassignedFacts(front, taken);
      var pool := Unassigned(front, taken);
      assert Elements(ordered) == Elements(front) + {last};
      assert last !in Elements(front);
      if last !in taken {
        assert Elements(pool + [last]) == Elements(pool) + {last};
        assert last !in Elements(pool);
        ConcatDistinct(pool, [last]);
      }
    }
  }

  lemma RandomRoundSize(ordered: seq<MemberId>, k: nat, prev: set<MemberId>, clock: nat -> nat, index: nat)
    requires Distinct(ordered) && 1 <= k && 1 <= |ordered|
    ensures var r := PlannedRound(ordered, k, Random, prev, clock, index);
      Distinct(r) && Elements(r) <= Elements(ordered) && |r| == if k <= |ordered| then k else |ordered|
  {
    var before := AssignedBefore(ordered, k, Random, prev, clock, index);
    var pool, source := Unassigned(ordered, before), RandomSource(ordered, k, before);
    UnassignedFacts(ordered, before);
    DrawFacts(source, if k < |source| then k else |source|, clock(index));
  }

  /** Round `index` of a random plan holds min(k, n) distinct roster members. It avoids everyone assigned
      before exactly when at least k members were still unassigned, whatever the clock reads. */
  lemma RandomRound(ordered: seq<MemberId>, k: nat, prev: set<MemberId>, clock: nat -> nat, index: nat)
    requires Distinct(ordered) && 1 <= k && 1 <= |ordered|
    ensures var r := PlannedRound(ordered, k, Random, prev, clock, index);
      var before := AssignedBefore(ordered, k, Random, prev, clock, index);
      && Distinct(r) && Elements(r) <= Elements(ordered)
      && |r| == (if k <= |ordered| then k else |ordered|)
      && (k <= |ordered| ==> (Elements(r) !! before <==> |Elements(ordered) - before| >= k))
  {
    var r := PlannedRound(ordered, k, Random, prev, clock, index);
    var before := AssignedBefore(ordered, k, Random, prev, clock, index);
    var pool, source := Unassigned(ordered, before), RandomSource(ordered, k, before);
    RandomRoundSize(ordered, k, prev, clock, index);
    UnassignedFacts(ordered, before);
    DistinctCardinality(pool);
    DrawFacts(source, if k < |source| then k else |source|, clock(index));
    DistinctCardinality(r);
    if k <= |ordered| && Elements(r) !! before {
      SubsetCardinality(Elements(r), Elements(ordered) - before);
    }
  }

  lemma GrowthStep(before: set<MemberId>, r: seq<MemberId>, start: nat, k: nat, index: nat)
    requires Distinct(r) && |r| <= k && |before| <= start + (index - 1) * k
    ensures |before + Elements(r)| <= start + index * k
  {
    DistinctCardinality(r);
    UnionBound(before, Elements(r));
    MulStep(index, k);
  }

  lemma {:induction false} AssignedGrowsSlowly(ordered: seq<MemberId>, k: nat, prev: set<MemberId>, clock: nat -> nat,
                                               index: nat)
    requires Distinct(ordered) && 1 <= k && 1 <= |ordered|
    ensures prev <= AssignedBefore(ordered, k, Random, prev, clock, index)
    ensures |AssignedBefore(ordered, k, Random, prev, clock, index)| <= |prev| + index * k
  {
    hide Pick;
    if index > 0 {
      AssignedGrowsSlowly(ordered, k, prev, clock, index - 1);
      RandomRoundSize(ordered, k, prev, clock, index - 1);
      var before := AssignedBefore(ordered, k, Random, prev, clock, index - 1);
      var r := PlannedRound(ordered, k, Random, prev, clock, index - 1);
      GrowthStep(before, r, |prev|, k, index);
    }
  }

  lemma UnionBound<T>(a: set<T>, b: set<T>)
    ensures |a + b| <= |a| + |b|
  {
    assert |a + b| == |a| + |b| - |a * b|;
  }

  lemma DifferenceBound<T>(a: set<T>, b: set<T>)
    ensures |a - b| >= |a| - |b|
  {
    SubsetCardinality(a * b, b);
    assert a == (a - b) + (a * b);
    assert |a| == |a - b| + |a * b|;
  }

  lemma RandomRoundAvoidsEarlier(ordered: seq<MemberId>, k: nat, prev: set<MemberId>, clock: nat -> nat, index: nat)
    requires Distinct(ordered) && 1 <= k && |ordered| >= |prev| + (index + 1) * k
    ensures Elements(PlannedRound(ordered, k, Random, prev, clock, index))
            !! AssignedBefore(ordered, k, Random, prev, clock, index)
  {
    var before := AssignedBefore(ordered, k, Random, prev, clock, index);
    MulStep(index, k);
    MulMonotone(0, index, k);
    AssignedGrowsSlowly(ordered, k, prev, clock, index);
    DistinctCardinality(ordered);
    DifferenceBound(Elements(ordered), before);
    RandomRound(ordered, k, prev, clock, index);
  }

  lemma {:induction false} EarlierRoundIsAssigned(ordered: seq<MemberId>, k: nat, how: PayoutMethod,
                                                  prev: set<MemberId>, clock: nat -> nat, i: nat, j: nat)
    requires i < j
    ensures Elements(PlannedRound(ordered, k, how, prev, clock, i)) <= AssignedBefore(ordered, k, how, prev, clock, j)
  {
    if i < j - 1 { EarlierRoundIsAssigned(ordered, k, how, prev, clock, i, j - 1); }
  }

  /** A fresh random plan: every round is min(k, n) distinct roster members, and the first floor(n / k)
      rounds are pairwise disjoint. */
  lemma RandomPlanRoundsDisjoint(ordered: seq<MemberId>, k: nat, clock: nat -> nat)
    requires Distinct(ordered) && 1 <= |ordered| && 1 <= k
    ensures var plan := Plan(ordered, k, Random, {}, clock);
      && (forall i :: 0 <= i < |plan| ==> Distinct(plan[i]) && Elements(plan[i]) <= Elements(ordered)
                                          && |plan[i]| == if k <= |ordered| then k else |ordered|)
      && |ordered| / k <= |plan|
      && (forall i, j :: 0 <= i < j < |ordered| / k ==> Elements(plan[i]) !! Elements(plan[j]))
  {
    var plan, n := Plan(ordered, k, Random, {}, clock), |ordered|;
    CeilExact(n, k, |plan|);
    forall i | 0 <= i < |plan|
      ensures Distinct(plan[i]) && Elements(plan[i]) <= Elements(ordered)
      ensures |plan[i]| == if k <= |ordered| then k else |ordered|
    {
      RandomRoundSize(ordered, k, {}, clock, i);
    }
    forall i, j | 0 <= i < j < n / k ensures Elements(plan[i]) !! Elements(plan[j]) {
      DivMod(n, k);
      MulMonotone(j + 1, n / k, k);
      RandomRoundAvoidsEarlier(ordered, k, {}, clock, j);
      EarlierRoundIsAssigned(ordered, k, Random, {}, clock, i, j);
    }
  }

  lemma {:induction false} FlattenContents(rounds: seq<seq<MemberId>>, size: nat, universe: set<MemberId>)
    requires forall i :: 0 <= i < |rounds| ==> |rounds[i]| == size && Elements(rounds[i]) <= universe
    ensures |Flatten(rounds)| == |rounds| * size && Elements(Flatten(rounds)) <= universe
    ensures forall x :: x in Flatten(rounds) ==> exists i :: 0 <= i < |rounds| && x in rounds[i]
  {
    if rounds != [] {
      var front, last := rounds[..|rounds| - 1], rounds[|rounds| - 1];
      FlattenContents(front, size, universe);
      MulStep(|rounds|, size);
      forall x | x in Flatten(rounds) ensures x in universe && exists i :: 0 <= i < |rounds| && x in rounds[i] {
        if x in last {
          assert x in Elements(rounds[|rounds| - 1]);
        } else {
          assert x in Elements(Flatten(front));
          var i :| 0 <= i < |front| && x in front[i];
          assert rounds[i] == front[i];
        }
      }
    }
  }

  lemma ConcatDistinct(a: seq<MemberId>, b: seq<MemberId>)
    requires Distinct(a) && Distinct(b) && forall x :: x in a ==> x !in b
    ensures Distinct(a + b)
  {
    forall i, j | 0 <= i < j < |a + b| ensures (a + b)[i] != (a + b)[j] {
      if i < |a| <= j { assert a[i] in a && b[j - |a|] in b; }
    }
  }

  lemma {:induction false} FlattenDisjoint(rounds: seq<seq<MemberId>>, size: nat, universe: set<MemberId>)
    requires forall i :: 0 <= i < |rounds| ==>
      Distinct(rounds[i]) && |rounds[i]| == size && Elements(rounds[i]) <= universe
    requires forall i, j :: 0 <= i < j < |rounds| ==> Elements(rounds[i]) !! Elements(rounds[j])
    ensures Distinct(Flatten(rounds))
  {
    if rounds != [] {
      var front, last := rounds[..|rounds| - 1], rounds[|rounds| - 1];
      FlattenDisjoint(front, size, universe);
      FlattenContents(front, size, universe);
      forall x | x in Flatten(front) ensures x !in last {
        var i :| 0 <= i < |front| && x in front[i];
        assert x in Elements(rounds[i]);
        assert Elements(rounds[i]) !! Elements(rounds[|rounds| - 1]);
      }
      ConcatDistinct(Flatten(front), last);
    }
  }

  /** Queue and random plans alike pay every member exactly once if and only if k divides n, or one
      round already covers the whole roster. */
  lemma PlanPaysEachOnceIff(ordered: seq<MemberId>, k: nat, how: PayoutMethod, clock: nat -> nat)
    requires Distinct(ordered) && 1 <= |ordered| && 1 <= k && (how == Queue || how == Random)
    ensures PaysEachOnce(Plan(ordered, k, how, {}, clock), ordered) <==> (|ordered| % k == 0 || |ordered| < k)
  {
    if how == Queue {
      QueuePaysEachOnceIff(ordered, k, clock);
    } else {
      RandomPaysEachOnceIff(ordered, k, clock);
    }
  }

  lemma QueuePaysEachOnceIff(ordered: seq<MemberId>, k: nat, clock: nat -> nat)
    requires Distinct(ordered) && 1 <= |ordered| && 1 <= k
    ensures PaysEachOnce(Plan(ordered, k, Queue, {}, clock), ordered) <==> (|ordered| % k == 0 || |ordered| < k)
  {
    var n, r, plan := |ordered|, RoundsCount(|ordered|, k), Plan(ordered, k, Queue, {}, clock);
    CeilExact(n, k, r);
    QueuePlanIsRotation(ordered, k, {}, clock);
    if n < k {
      DistinctIffMultiplicityOne(ordered);
    } else if r * k == n {
      forall x | x in ordered ensures multiset(Flatten(plan))[x] == 1 {
        var p :| 0 <= p < n && ordered[p] == x;
        QueuePaymentCount(ordered, k, {}, clock, p);
      }
    } else {
      QueuePaymentCount(ordered, k, {}, clock, 0);
      assert ordered[0] in ordered;
    }
  }

  lemma RandomPaysEachOnceIff(ordered: seq<MemberId>, k: nat, clock: nat -> nat)
    requires Distinct(ordered) && 1 <= |ordered| && 1 <= k
    ensures PaysEachOnce(Plan(ordered, k, Random, {}, clock), ordered) <==> (|ordered| % k == 0 || |ordered| < k)
  {
    var n, r, plan := |ordered|, RoundsCount(|ordered|, k), Plan(ordered, k, Random, {}, clock);
    var flat, size := Flatten(plan), if k <= n then k else n;
    CeilExact(n, k, r);
    CeilOne(n, k, r);
    RandomPlanRoundsDisjoint(ordered, k, clock);
    FlattenContents(plan, size, Elements(ordered));
    if n % k == 0 || n < k {
      FlattenDisjoint(plan, size, Elements(ordered));
      DistinctPigeonhole(flat, ordered);
      DistinctIffMultiplicityOne(ordered);
    }
    if PaysEachOnce(plan, ordered) {
      EqualCountsEqualLength(flat, ordered);
    }
  }

  lemma EqualCountsEqualLength(flat: seq<MemberId>, ordered: seq<MemberId>)
    requires Distinct(ordered) && Elements(flat) <= Elements(ordered)
    requires forall x :: x in ordered ==> multiset(flat)[x] == 1
    ensures |flat| == |ordered|
  {
    DistinctIffMultiplicityOne(ordered);
    forall x ensures multiset(flat)[x] == multiset(ordered)[x] {
      if x in flat { assert x in Elements(flat); }
    }
    assert multiset(flat) == multiset(ordered);
    assert |multiset(flat)| == |flat| && |multiset(ordered)| == |ordered|;
  }

  // ---- re-rolling round r (payouts.service.ts) ----

  /** Re-rolling round r picks nobody who was assigned in an earlier round, as long as n >= (2r - 1) * k:
      the simulated rounds before r use up as many members again as the real ones did. */
  lemma RerollAvoidsEarlierRounds(ordered: seq<MemberId>, k: nat, earlier: set<MemberId>, clock: nat -> nat, r: nat)
    requires Distinct(ordered) && 1 <= k && 1 <= r
    requires |earlier| <= (r - 1) * k && |ordered| >= (2 * r - 1) * k
    ensures r <= RoundsCount(|ordered|, k)
    ensures Elements(PlannedRound(ordered, k, Random, earlier, clock, r - 1)) !! earlier
  {
    var n, count := |ordered|, RoundsCount(|ordered|, k);
    assert n >= 1 by { MulStep(2 * r - 1, k); MulMonotone(1, 2 * r - 1, k); }
    RerollRoom(n, |earlier|, k, r, count);
    RandomRoundAvoidsEarlier(ordered, k, earlier, clock, r - 1);
    AssignedGrowsSlowly(ordered, k, earlier, clock, r - 1);
  }

  /** As rounds are drawn the assigned members grow by k a round, until fewer than k are left. */
  lemma {:induction false} GrowsOrRunsOut(ordered: seq<MemberId>, k: nat, prev: set<MemberId>, clock: nat -> nat,
                                          index: nat)
    requires Distinct(ordered) && 1 <= k && 1 <= |ordered| && prev <= Elements(ordered)
    ensures var taken := AssignedBefore(ordered, k, Random, prev, clock, index);
      taken <= Elements(ordered) && (|taken| == |prev| + Times(index, k) || |Elements(ordered) - taken| < k)
  {
    hide PlannedRound, Times;
    TimesStep(index, k);
    if index > 0 {
      GrowsOrRunsOut(ordered, k, prev, clock, index - 1);
      var before := AssignedBefore(ordered, k, Random, prev, clock, index - 1);
      var round := PlannedRound(ordered, k, Random, prev, clock, index - 1);
      RandomRound(ordered, k, prev, clock, index - 1);
      DistinctCardinality(ordered);
      SubsetCardinality(Elements(ordered) - before, Elements(ordered));
      OneMoreRound(Elements(ordered), before, round, k);
    }
  }

  lemma OneMoreRound(all: set<MemberId>, before: set<MemberId>, round: seq<MemberId>, k: nat)
    requires before <= all && Elements(round) <= all && Distinct(round)
    requires |all - before| >= k ==> |round| == k && Elements(round) !! before
    ensures var taken := before + Elements(round);
      taken <= all && (|all - before| < k ==> |all - taken| < k) && (|all - before| >= k ==> |taken| == |before| + k)
  {
    var taken := before + Elements(round);
    DistinctCardinality(round);
    SubsetCardinality(all - taken, all - before);
    if |all - before| >= k { assert |taken| == |before| + |Elements(round)|; }
  }

  lemma FewLeftBelowBound(all: set<MemberId>, taken: set<MemberId>, k: nat, r: nat)
    requires 1 <= r && taken <= all && |all| < Times(2 * r - 1, k) && |taken| == Times(r - 1, k) + Times(r - 1, k)
    ensures |all - taken| < k
  {
    TimesAdd(r - 1, r - 1, k);
    TimesStep(2 * r - 2, k);
    hide Times;
    assert all == (all - taken) + taken;
  }

  /** Below the bound the simulation has used everybody up by the time it reaches round r, so round r is drawn
      from the whole roster, whoever the earlier recipients were. */
  lemma BelowBoundDrawsFromAll(ordered: seq<MemberId>, k: nat, earlier: set<MemberId>, clock: nat -> nat, r: nat)
    requires Distinct(ordered) && 1 <= k && 1 <= r && 1 <= |ordered| && earlier <= Elements(ordered)
    requires |earlier| == Times(r - 1, k) && |ordered| < Times(2 * r - 1, k)
    ensures PlannedRound(ordered, k, Random, earlier, clock, r - 1)
            == Draw(ordered, if k < |ordered| then k else |ordered|, clock(r - 1))
  {
    hide Times, Draw, Unassigned, AssignedBefore, Distinct;
    var all, taken := Elements(ordered), AssignedBefore(ordered, k, Random, earlier, clock, r - 1);
    GrowsOrRunsOut(ordered, k, earlier, clock, r - 1);
    DistinctCardinality(ordered);
    if |taken| == |earlier| + Times(r - 1, k) { FewLeftBelowBound(all, taken, k, r); }
    UnassignedFacts(ordered, taken);
    DistinctCardinality(Unassigned(ordered, taken));
    assert RandomSource(ordered, k, taken) == ordered;
  }

  /** Whom the rounds before round r can have paid: at most (r - 1) * k roster members. */
  predicate PossiblyEarlier(ordered: seq<MemberId>, k: nat, r: nat, earlier: set<MemberId>)
    requires 1 <= r
  {
    earlier <= Elements(ordered) && |earlier| <= Times(r - 1, k)
  }

  ghost predicate AvoidsEarlier(ordered: seq<MemberId>, k: nat, clock: nat -> nat, r: nat, earlier: set<MemberId>)
    requires 1 <= r
  {
    Elements(PlannedRound(ordered, k, Random, earlier, clock, r - 1)) !! earlier
  }

  /** Below the bound, whatever the clock reads, some full set of earlier recipients is paid again. */
  lemma RerollBelowBoundRepeats(ordered: seq<MemberId>, k: nat, clock: nat -> nat, r: nat)
    requires Distinct(ordered) && 1 <= k && 2 <= r <= RoundsCount(|ordered|, k) && |ordered| < Times(2 * r - 1, k)
    ensures exists earlier :: PossiblyEarlier(ordered, k, r, earlier) && |earlier| == Times(r - 1, k)
                              && !AvoidsEarlier(ordered, k, clock, r, earlier)
  {
    hide Draw, PlannedRound, RoundsCount;
    var n, size := |ordered|, Times(r - 1, k);
    EarlierFit(n, k, r);
    var drawn := Draw(ordered, if k < n then k else n, clock(r - 1));
    DrawFacts(ordered, if k < n then k else n, clock(r - 1));
    DistinctCardinality(ordered);
    var x := drawn[0];
    assert x in Elements(drawn);
    var earlier := SubsetWith(Elements(ordered), x, size);
    hide Times;
    BelowBoundDrawsFromAll(ordered, k, earlier, clock, r);
    assert x in Elements(drawn) * earlier;
  }

  lemma EarlierFit(n: nat, k: nat, r: nat)
    requires 1 <= k && 2 <= r <= RoundsCount(n, k)
    ensures n >= 1 && 1 <= Times(r - 1, k) < n
  {
    MulMonotone(r - 1, RoundsCount(n, k) - 1, k);
    MulMonotone(1, r - 1, k);
  }

  lemma {:induction false} SubsetWith(s: set<MemberId>, x: MemberId, size: nat) returns (t: set<MemberId>)
    requires x in s && 1 <= size <= |s|
    ensures x in t && t <= s && |t| == size
    decreases |s|
  {
    if size == |s| {
      t := s;
    } else {
      SubsetCardinality({x}, s);
      assert s != {x};
      assert |s - {x}| == |s| - 1;
      var y := SomeElement(s - {x});
      t := SubsetWith(s - {y}, x, size);
    }
  }

  /** Exactly when re-rolling is safe: for any clock, round r avoids the earlier recipients, whoever they were, if
      and only if n >= (2r - 1) * k. The first round has none to avoid. */
  lemma RerollAvoidsEarlierIff(ordered: seq<MemberId>, k: nat, clock: nat -> nat, r: nat)
    requires Distinct(ordered) && 1 <= k && 2 <= r <= RoundsCount(|ordered|, k)
    ensures (forall earlier :: PossiblyEarlier(ordered, k, r, earlier) ==> AvoidsEarlier(ordered, k, clock, r, earlier))
            <==> |ordered| >= Times(2 * r - 1, k)
  {
    hide PlannedRound, RoundsCount;
    if |ordered| >= Times(2 * r - 1, k) {
      forall earlier | PossiblyEarlier(ordered, k, r, earlier) ensures AvoidsEarlier(ordered, k, clock, r, earlier) {
        RerollAvoidsEarlierRounds(ordered, k, earlier, clock, r);
      }
    } else {
      RerollBelowBoundRepeats(ordered, k, clock, r);
    }
  }
}
