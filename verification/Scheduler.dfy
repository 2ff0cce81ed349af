/** backend/src/lib/cycleScheduler.ts: round generation, due dates and recipient assignment. */
module Scheduler {
  import opened Common

  type MemberId = int

  datatype Frequency = Weekly | Fortnightly | Monthly
  datatype PayoutMethod = Queue | Random | Manual | Voting
  datatype RosterEntry = RosterEntry(id: MemberId, position: Option<int>)
  datatype GeneratedRound = GeneratedRound(roundNumber: nat, dueDate: int, recipients: seq<MemberId>)

  const MS_PER_DAY: int := 86_400_000
  const LCG_MULTIPLIER: nat := 9301
  const LCG_INCREMENT: nat := 49297
  const LCG_MODULUS: nat := 233280

  // ---- round count and due dates ----

  /** The least number of k-sized rounds that covers n members; one round per member in a savings pool (k <= 0). */
  function RoundsCount(n: int, k: int): (r: nat)
    ensures n <= 0 ==> r == 0
    ensures n > 0 && k <= 0 ==> r == n
    ensures n > 0 && k > 0 ==> (r - 1) * k < n <= r * k
  {
    if n <= 0 then 0 else if k <= 0 then n else CeilDiv(n, k)
  }

  function CeilDiv(n: nat, k: nat): (r: nat)
    requires n > 0 && k > 0
    ensures (r - 1) * k < n <= r * k
  {
    var q := (n + k - 1) / k;
    assert q * k <= n + k - 1 < q * k + k;
    q
  }

  function FrequencyDays(f: Frequency): int {
    match f
    case Weekly => 7
    case Fortnightly => 14
    case Monthly => 30
  }

  function DueDateForRound(start: int, f: Frequency, index: nat): int {
    start + FrequencyDays(f) * index * MS_PER_DAY
  }

  // ---- payout-position order ----

  predicate InPositionOrder(s: seq<RosterEntry>) {
    && (forall e :: e in s ==> e.position.Some?)
    && (forall i, j :: 0 <= i < j < |s| ==> s[i].position.value <= s[j].position.value)
  }

  /** Places x after every entry whose position is not larger. */
  function InsertByPosition(s: seq<RosterEntry>, x: RosterEntry): seq<RosterEntry>
    requires forall e :: e in s ==> e.position.Some?
    requires x.position.Some?
  {
    if s == [] || s[|s| - 1].position.value <= x.position.value then s + [x]
    else InsertByPosition(s[..|s| - 1], x) + [s[|s| - 1]]
  }

  /** Members with a payout position, in position order; equal positions keep their original order. */
  function Ordered(members: seq<RosterEntry>): (r: seq<RosterEntry>)
    ensures InPositionOrder(r)
  {
    if members == [] then [] else
      var front, last := Ordered(members[..|members| - 1]), members[|members| - 1];
      if last.position.None? then front else
        InsertFacts(front, last);
        InsertByPosition(front, last)
  }

  lemma {:induction false} InsertFacts(s: seq<RosterEntry>, x: RosterEntry)
    requires x.position.Some? && InPositionOrder(s)
    ensures var r := InsertByPosition(s, x);
      InPositionOrder(r) && (forall e :: e in r <==> e in s || e == x)
  {
    if s == [] || s[|s| - 1].position.value <= x.position.value {
    } else {
      var front, last := s[..|s| - 1], s[|s| - 1];
      assert s == front + [last];
      InsertFacts(front, x);
      var r0 := InsertByPosition(front, x);
      forall i | 0 <= i < |r0| ensures r0[i].position.value <= last.position.value { assert r0[i] in r0; }
    }
  }

  /** The entries at one position, in sequence order. */
  function AtPosition(s: seq<RosterEntry>, p: int): seq<RosterEntry> {
    if s == [] then [] else
      var front, last := AtPosition(s[..|s| - 1], p), s[|s| - 1];
      if last.position == Some(p) then front + [last] else front
  }

  lemma {:induction false} InsertIsStable(s: seq<RosterEntry>, x: RosterEntry, p: int)
    requires x.position.Some? && InPositionOrder(s)
    ensures AtPosition(InsertByPosition(s, x), p) == AtPosition(s + [x], p)
  {
    assert (s + [x])[..|s|] == s;
    if s == [] || s[|s| - 1].position.value <= x.position.value {
    } else {
      var front, last := s[..|s| - 1], s[|s| - 1];
      InsertIsStable(front, x, p);
      var r0 := InsertByPosition(front, x);
      assert (r0 + [last])[..|r0|] == r0;
      assert (front + [x])[..|front|] == front;
    }
  }

  /** The sort is stable and loses nobody: position by position it lists the members in their given order. */
  lemma {:induction false} OrderedIsStable(members: seq<RosterEntry>, p: int)
    ensures AtPosition(Ordered(members), p) == AtPosition(members, p)
  {
    if members != [] {
      var front, last := members[..|members| - 1], members[|members| - 1];
      OrderedIsStable(front, p);
      if last.position.Some? {
        InsertIsStable(Ordered(front), last, p);
        var s := Ordered(front);
        assert (s + [last])[..|s|] == s;
      }
    }
  }

  function Ids(s: seq<RosterEntry>): (r: seq<MemberId>)
    ensures |r| == |s| && forall i :: 0 <= i < |s| ==> r[i] == s[i].id
  {
    seq(|s|, i requires 0 <= i < |s| => s[i].id)
  }

  lemma {:induction false} OrderedKeepsDistinctIds(members: seq<RosterEntry>)
    requires Distinct(Ids(members))
    ensures Distinct(Ids(Ordered(members)))
    ensures forall e :: e in Ordered(members) <==> e in members && e.position.Some?
  {
    if members != [] {
      var front, last := members[..|members| - 1], members[|members| - 1];
      assert Ids(front) == Ids(members)[..|front|];
      OrderedKeepsDistinctIds(front);
      assert members == front + [last];
      if last.position.Some? {
        var s := Ordered(front);
        InsertFacts(s, last);
        forall e | e in s ensures e.id != last.id {
          assert e in front;
          var i :| 0 <= i < |front| && front[i] == e;
          assert Ids(members)[i] != Ids(members)[|front|];
        }
        InsertKeepsDistinctIds(s, last);
      }
    }
  }

  lemma {:induction false} InsertKeepsDistinctIds(s: seq<RosterEntry>, x: RosterEntry)
    requires x.position.Some? && forall e :: e in s ==> e.position.Some?
    requires Distinct(Ids(s)) && forall e :: e in s ==> e.id != x.id
    ensures Distinct(Ids(InsertByPosition(s, x)))
    ensures forall e :: e in InsertByPosition(s, x) ==> e in s || e == x
  {
    var r := InsertByPosition(s, x);
    if s == [] || s[|s| - 1].position.value <= x.position.value {
      assert r == s + [x];
      forall i, j | 0 <= i < j < |r| ensures Ids(r)[i] != Ids(r)[j] {
        if j == |s| { assert s[i] in s; } else { assert Ids(s)[i] != Ids(s)[j]; }
      }
    } else {
      var front, last := s[..|s| - 1], s[|s| - 1];
      assert Ids(front) == Ids(s)[..|front|];
      InsertKeepsDistinctIds(front, x);
      var r0 := InsertByPosition(front, x);
      forall i, j | 0 <= i < j < |r| ensures Ids(r)[i] != Ids(r)[j] {
        if j == |r0| {
          assert r0[i] in r0;
          if r0[i] in front {
            var a :| 0 <= a < |front| && front[a] == r0[i];
            assert Ids(s)[a] != Ids(s)[|front|];
          } else { assert last in s; }
        } else { assert Ids(r0)[i] != Ids(r0)[j]; }
      }
    }
  }

  // ---- the random draw ----

  function Swap<T>(a: seq<T>, i: nat, j: nat): (r: seq<T>)
    requires i < |a| && j < |a|
    ensures |r| == |a|
  {
    a[i := a[j]][j := a[i]]
  }

  lemma SwapIsPermutation<T>(a: seq<T>, i: nat, j: nat)
    requires i < |a| && j < |a|
    ensures multiset(Swap(a, i, j)) == multiset(a)
  {
  }

  function NextSeed(s: nat): (r: nat)
    ensures r < LCG_MODULUS
  {
    (s * LCG_MULTIPLIER + LCG_INCREMENT) % LCG_MODULUS
  }

  /** floor(rand() * (i + 1)) for the generator state s. */
  function DrawIndex(s: nat, i: nat): (j: nat)
    requires s < LCG_MODULUS
    ensures j <= i
  {
    assert s * (i + 1) < LCG_MODULUS * (i + 1);
    s * (i + 1) / LCG_MODULUS
  }

  /** The Fisher-Yates pass from index i down to 1, starting in generator state s. */
  function Shuffle(a: seq<MemberId>, s: nat, i: int): (r: seq<MemberId>)
    requires i < |a|
    ensures |r| == |a|
    decreases i
  {
    if i <= 0 then a else
      var s' := NextSeed(s);
      Shuffle(Swap(a, i, DrawIndex(s', i)), s', i - 1)
  }

  function Draw(source: seq<MemberId>, n: int, seed: nat): seq<MemberId> {
    if n <= 0 then []
    else if n >= |source| then source
    else Shuffle(source, seed, |source| - 1)[..n]
  }

  lemma {:induction false} ShuffleIsPermutation(a: seq<MemberId>, s: nat, i: int)
    requires i < |a|
    ensures multiset(Shuffle(a, s, i)) == multiset(a)
    decreases i
  {
    if i > 0 {
      var s' := NextSeed(s);
      SwapIsPermutation(a, i, DrawIndex(s', i));
      ShuffleIsPermutation(Swap(a, i, DrawIndex(s', i)), s', i - 1);
    }
  }

  lemma DrawFacts(source: seq<MemberId>, n: nat, seed: nat)
    requires Distinct(source)
    ensures var r := Draw(source, n, seed);
      Distinct(r) && Elements(r) <= Elements(source) && |r| == if n < |source| then n else |source|
  {
    if 0 < n < |source| {
      var full := Shuffle(source, seed, |source| - 1);
      ShuffleIsPermutation(source, seed, |source| - 1);
      PermutationKeepsDistinct(source, full);
      forall x | x in full[..n] ensures x in source { assert x in Elements(full); }
    }
  }

  /** The generator's next state, and the place it draws among the first i + 1: floor(rand() * (i + 1)). */
  lemma DrawnPlace(s: nat, i: nat)
    ensures var s', j := NextSeed(s), DrawIndex(NextSeed(s), i);
      && 0 <= s' < 233_280 && (9301 * s + 49_297 - s') % 233_280 == 0
      && j * 233_280 <= s' * (i + 1) < (j + 1) * 233_280
  {
    WholePart(NextSeed(s) * (i + 1));
    WholePart(9301 * s + 49_297);
    Remainder(9301 * s + 49_297);
    hide DrawIndex;
    assert DrawIndex(NextSeed(s), i) == NextSeed(s) * (i + 1) / 233_280 by { DrawIndexIs(NextSeed(s), i); }
  }

  lemma DrawIndexIs(s: nat, i: nat)
    requires s < LCG_MODULUS
    ensures DrawIndex(s, i) == s * (i + 1) / 233_280
  {
  }

  lemma WholePart(x: nat)
    ensures x / 233_280 * 233_280 <= x < (x / 233_280 + 1) * 233_280
  {
  }

  lemma Remainder(x: nat)
    ensures 0 <= x % 233_280 < 233_280 && (x - x % 233_280) % 233_280 == 0
  {
  }

  /** The pass fills the places from the back: place i gets what stood at the drawn place, whose own content moves
      up, and the rest is shuffled in the generator's next state. */
  lemma {:induction false} ShuffleFillsFromTheBack(a: seq<MemberId>, s: nat, i: int)
    requires i < |a|
    ensures forall p :: 0 <= p < |a| && p > i ==> Shuffle(a, s, i)[p] == a[p]
    ensures i <= 0 ==> Shuffle(a, s, i) == a
    ensures i > 0 ==>
      var s', j := NextSeed(s), DrawIndex(NextSeed(s), i);
      Shuffle(a, s, i)[i] == a[j] && Shuffle(a, s, i) == Shuffle(a[i := a[j]][j := a[i]], s', i - 1)
    decreases i
  {
    if i > 0 {
      var s', j := NextSeed(s), DrawIndex(NextSeed(s), i);
      hide NextSeed, DrawIndex;
      var b := Swap(a, i, j);
      ShuffleFillsFromTheBack(b, s', i - 1);
      assert b[i] == a[j];
    }
  }

  /** A draw that does not take everybody takes the first n of a full shuffle. */
  lemma DrawTakesFirst(source: seq<MemberId>, n: int, seed: nat)
    ensures Draw(source, n, seed) ==
      if n <= 0 then [] else if n >= |source| then source else Shuffle(source, seed, |source| - 1)[..n]
  {
  }

  method DrawN(source: seq<MemberId>, n: int, seed: nat) returns (out: seq<MemberId>)
    ensures out == Draw(source, n, seed)
  {
    hide NextSeed, DrawIndex;
    if n <= 0 { return []; }
    if n >= |source| { return source; }
    var arr := new MemberId[|source|](i requires 0 <= i < |source| => source[i]);
    var s: nat := seed;
    var i := arr.Length - 1;
    assert arr[..] == source;
    while i > 0
      invariant 0 <= i < arr.Length == |source|
      invariant Shuffle(arr[..], s, i) == Shuffle(source, seed, |source| - 1)
    {
      ghost var before := arr[..];
      s := NextSeed(s);
      var j := DrawIndex(s, i);
      arr[i], arr[j] := arr[j], arr[i];
      assert arr[..] == Swap(before, i, j);
      i := i - 1;
    }
    out := arr[..n];
  }

  // ---- one round's recipients ----

  /** The queue loop after t of its iterations: ids met so far, without repeats. */
  function QueuePicks(ordered: seq<MemberId>, base: nat, t: nat): seq<MemberId>
    requires ordered != []
  {
    if t == 0 then [] else
      var picks, id := QueuePicks(ordered, base, t - 1), ordered[(base + t - 1) % |ordered|];
      if id in picks then picks else picks + [id]
  }

  function Unassigned(ordered: seq<MemberId>, taken: set<MemberId>): seq<MemberId> {
    if ordered == [] then [] else
      var front, last := Unassigned(ordered[..|ordered| - 1], taken), ordered[|ordered| - 1];
      if last in taken then front else front + [last]
  }

  /** Who a random draw may choose from: the unassigned members if there are enough, everyone otherwise. */
  function RandomSource(ordered: seq<MemberId>, k: int, taken: set<MemberId>): seq<MemberId> {
    var pool := Unassigned(ordered, taken);
    if |pool| >= k then pool else ordered
  }

  function Pick(ordered: seq<MemberId>, k: int, how: PayoutMethod, index: nat, taken: set<MemberId>,
                seed: nat): seq<MemberId> {
    if |ordered| == 0 || k <= 0 then [] else
      match how
      case Queue => QueuePicks(ordered, index * k, k)
      case Random =>
        var source := RandomSource(ordered, k, taken);
        Draw(source, if k < |source| then k else |source|, seed)
      case Manual => []
      case Voting => []
  }

  method PickRecipients(ordered: seq<MemberId>, k: int, how: PayoutMethod, index: nat, taken: set<MemberId>, seed: nat)
    returns (out: seq<MemberId>)
    ensures out == Pick(ordered, k, how, index, taken, seed)
  {
    if |ordered| == 0 || k <= 0 { return []; }
    match how
    case Queue =>
      out := [];
      var seen: set<MemberId> := {};
      for i := 0 to k
        invariant out == QueuePicks(ordered, index * k, i) && seen == Elements(out)
      {
        var memberId := ordered[(index * k + i) % |ordered|];
        if memberId !in seen {
          seen := seen + {memberId};
          out := out + [memberId];
        }
      }
    case Random =>
      var pool := Unassigned(ordered, taken);
      var source := if |pool| >= k then pool else ordered;
      out := DrawN(source, if k < |source| then k else |source|, seed);
    case _ =>
      out := [];
  }

  // ---- the whole plan ----

  /** Everyone taken before round `index` is drawn. The clock gives the reading that seeds each round's draw. */
  function AssignedBefore(ordered: seq<MemberId>, k: int, how: PayoutMethod, prev: set<MemberId>, clock: nat -> nat,
                          index: nat)
    : set<MemberId>
    decreases index, 0
  {
    if index == 0 then prev else
      AssignedBefore(ordered, k, how, prev, clock, index - 1)
      + Elements(PlannedRound(ordered, k, how, prev, clock, index - 1))
  }

  function PlannedRound(ordered: seq<MemberId>, k: int, how: PayoutMethod, prev: set<MemberId>, clock: nat -> nat,
                        index: nat)
    : seq<MemberId>
    decreases index, 1
  {
    Pick(ordered, k, how, index, AssignedBefore(ordered, k, how, prev, clock, index), clock(index))
  }

  function Plan(ordered: seq<MemberId>, k: int, how: PayoutMethod, prev: set<MemberId>,
                clock: nat -> nat): (p: seq<seq<MemberId>>)
    ensures |p| == RoundsCount(|ordered|, k)
  {
    seq(RoundsCount(|ordered|, k), i requires 0 <= i => PlannedRound(ordered, k, how, prev, clock, i))
  }

  function GeneratedAt(ordered: seq<MemberId>, k: int, f: Frequency, start: int, how: PayoutMethod, prev: set<MemberId>,
                       clock: nat -> nat, index: nat): GeneratedRound
  {
    GeneratedRound(index + 1, DueDateForRound(start, f, index), PlannedRound(ordered, k, how, prev, clock, index))
  }

  function Generated(members: seq<RosterEntry>, k: int, f: Frequency, start: int, how: PayoutMethod,
                     prev: set<MemberId>, clock: nat -> nat): (g: seq<GeneratedRound>)
    ensures |g| == RoundsCount(|Ordered(members)|, k)
  {
    var ordered := Ids(Ordered(members));
    seq(RoundsCount(|ordered|, k), i requires 0 <= i => GeneratedAt(ordered, k, f, start, how, prev, clock, i))
  }

  method GenerateRounds(members: seq<RosterEntry>, k: int, f: Frequency, start: int, how: PayoutMethod,
                        prev: set<MemberId>, clock: nat -> nat)
    returns (rounds: seq<GeneratedRound>)
    ensures rounds == Generated(members, k, f, start, how, prev, clock)
  {
    var ordered := Ids(Ordered(members));
    var count := RoundsCount(|ordered|, k);
    var alreadyAssigned := prev;
    hide Pick;
    rounds := [];
    for i := 0 to count
      invariant alreadyAssigned == AssignedBefore(ordered, k, how, prev, clock, i)
      invariant |rounds| == i
      invariant forall j :: 0 <= j < i ==> rounds[j] == GeneratedAt(ordered, k, f, start, how, prev, clock, j)
    {
      var recipients := PickRecipients(ordered, k, how, i, alreadyAssigned, clock(i));
      assert recipients == PlannedRound(ordered, k, how, prev, clock, i);
      rounds := rounds + [GeneratedRound(i + 1, DueDateForRound(start, f, i), recipients)];
      alreadyAssigned := alreadyAssigned + Elements(recipients);
    }
  }
}
