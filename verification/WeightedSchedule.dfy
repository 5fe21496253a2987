/** The largest-deficit weighted schedule. Tiers are positions in the weight table. */
module WeightedSchedule {
  import opened Arithmetic
  import opened Counting

  /** `weights[i] / denom` is tier i's share: `pct / 100.0` in the source. */
  datatype Shares = Shares(weights: seq<nat>, denom: nat)

  predicate Shared(s: Shares) {
    |s.weights| > 0 && s.denom > 0 && Sum(s.weights) == s.denom
  }

  /** The first tier that is furthest behind. */
  predicate FurthestBehind(d: seq<int>, k: nat) {
    k < |d| && (forall i | 0 <= i < |d| :: d[i] <= d[k]) && (forall i | 0 <= i < k :: d[i] < d[k])
  }

  function Best(d: seq<int>): (k: nat)
    requires |d| > 0
    ensures k < |d|
  {
    if |d| == 1 then 0
    else
      var k := Best(d[..|d| - 1]);
      if d[|d| - 1] > d[k] then |d| - 1 else k
  }

  lemma {:induction false} BestIsFurthest(d: seq<int>)
    requires |d| > 0
    ensures FurthestBehind(d, Best(d))
  {
    if |d| == 1 {
    } else {
      var init := d[..|d| - 1];
      BestIsFurthest(init);
      assert forall i | 0 <= i < |init| :: d[i] == init[i];
    }
  }

  lemma FurthestIsUnique(d: seq<int>, j: nat, k: nat)
    requires FurthestBehind(d, j) && FurthestBehind(d, k)
    ensures j == k
  {
    assert d[j] <= d[k] <= d[j];
  }

  lemma BestIsOnly(d: seq<int>, k: nat)
    requires FurthestBehind(d, k)
    ensures Best(d) == k
  {
    BestIsFurthest(d);
    FurthestIsUnique(d, Best(d), k);
  }

  /** Everyone earns a share of the next slot. */
  function Earn(c: seq<int>, weights: seq<nat>): (d: seq<int>)
    requires |c| == |weights|
    ensures |d| == |c|
    ensures forall i | 0 <= i < |d| :: d[i] == c[i] + weights[i]
  {
    if |c| == 0 then []
    else Earn(c[..|c| - 1], weights[..|c| - 1]) + [c[|c| - 1] + weights[|c| - 1]]
  }

  function Zeros(k: nat): (c: seq<int>)
    ensures |c| == k
    ensures forall i | 0 <= i < k :: c[i] == 0
  {
    if k == 0 then [] else Zeros(k - 1) + [0]
  }

  /** The tier furthest behind gets the slot and pays for it with one whole pick. */
  function Award(d: seq<int>, denom: nat): (c: seq<int>)
    requires |d| > 0
    ensures |c| == |d|
  {
    d[Best(d) := d[Best(d)] - denom]
  }

  /** Each tier's standing after n slots of the greedy selection run forever: what it was
      entitled to minus what it got, in units of 1/denom of a pick. */
  function Standing(s: Shares, n: nat): (c: seq<int>)
    requires |s.weights| > 0
    ensures |c| == |s.weights|
  {
    if n == 0 then Zeros(|s.weights|)
    else Award(Earn(Standing(s, n - 1), s.weights), s.denom)
  }

  /** The standings the slot at 0-based position n is decided on. */
  function Due(s: Shares, n: nat): (d: seq<int>)
    requires |s.weights| > 0
    ensures |d| == |s.weights|
  {
    Earn(Standing(s, n), s.weights)
  }

  /** The tier picked at 0-based slot n. */
  function Pick(s: Shares, n: nat): (k: nat)
    requires |s.weights| > 0
    ensures k < |s.weights|
  {
    Best(Due(s, n))
  }

  /** How often tier i has been picked in the first n slots. */
  function Picked(s: Shares, n: nat, i: nat): nat
    requires |s.weights| > 0
  {
    if n == 0 then 0 else Picked(s, n - 1, i) + (if Pick(s, n - 1) == i then 1 else 0)
  }

  /** Nobody is owed anything at the start. */
  lemma FirstStanding(s: Shares)
    requires |s.weights| > 0
    ensures forall i | 0 <= i < |s.weights| :: Standing(s, 0)[i] == 0
  {
  }

  lemma NextStanding(s: Shares, n: nat, i: nat)
    requires |s.weights| > 0 && i < |s.weights|
    ensures Standing(s, n + 1)[i]
            == Standing(s, n)[i] + s.weights[i] - (if Pick(s, n) == i then s.denom else 0)
  {
  }

  /** The whole future depends on the standings alone. */
  lemma SameNext(s: Shares, a: nat, b: nat)
    requires |s.weights| > 0 && Standing(s, a) == Standing(s, b)
    ensures Pick(s, a) == Pick(s, b) && Standing(s, a + 1) == Standing(s, b + 1)
  {
  }

  /** A standing is the scaled deficit the source computes: share * slots - picks. */
  lemma {:induction false} StandingIsDeficit(s: Shares, n: nat, i: nat)
    requires |s.weights| > 0 && i < |s.weights|
    ensures Standing(s, n)[i] == s.weights[i] * n - s.denom * Picked(s, n, i)
  {
    hide Standing, Pick;
    if n == 0 {
      FirstStanding(s);
    } else {
      StandingIsDeficit(s, n - 1, i);
      NextStanding(s, n - 1, i);
      Distribute(s.weights[i], n - 1);
      Distribute(s.denom, Picked(s, n - 1, i));
    }
  }

  // ---------------------------------------------------------------- fairness at every prefix

  lemma {:induction false} SumPlus(a: seq<int>, b: seq<int>, c: seq<int>)
    requires |a| == |b| == |c|
    requires forall i | 0 <= i < |a| :: c[i] == a[i] + b[i]
    ensures Sum(c) == Sum(a) + Sum(b)
  {
    if |a| == 0 {
    } else {
      var k := |a| - 1;
      SumPlus(a[..k], b[..k], c[..k]);
    }
  }

  lemma AwardSum(d: seq<int>, denom: nat)
    requires |d| > 0
    ensures Sum(Award(d, denom)) == Sum(d) - denom
  {
    hide Best, Sum;
    SumUpdate(d, Best(d), d[Best(d)] - denom);
  }

  lemma NextIsAward(s: Shares, n: nat)
    requires |s.weights| > 0
    ensures Standing(s, n + 1) == Award(Due(s, n), s.denom)
    ensures forall i | 0 <= i < |s.weights| :: Due(s, n)[i] == Standing(s, n)[i] + s.weights[i]
  {
  }

  /** What one tier is behind, the others are ahead. */
  lemma {:induction false} StandingsBalance(s: Shares, n: nat)
    requires Shared(s)
    ensures Sum(Standing(s, n)) == 0 && Sum(Due(s, n)) == s.denom
  {
    hide Standing, Due, Award, Sum;
    if n == 0 {
      FirstStanding(s);
      SumZeros(Standing(s, 0));
    } else {
      StandingsBalance(s, n - 1);
      NextIsAward(s, n - 1);
      AwardSum(Due(s, n - 1), s.denom);
    }
    NextIsAward(s, n);
    SumPlus(Standing(s, n), s.weights, Due(s, n));
  }

  /** When a slot is due some tier is behind, so the one picked is. */
  lemma BestIsBehind(s: Shares, n: nat)
    requires Shared(s)
    ensures Standing(s, n)[Pick(s, n)] + s.weights[Pick(s, n)] > 0
  {
    hide Standing, Due, Best, Sum;
    var d := Due(s, n);
    StandingsBalance(s, n);
    NextIsAward(s, n);
    if d[Best(d)] <= 0 {
      BestIsFurthest(d);
      SumCeilingZero(d);
    }
  }

  lemma {:induction false} SumCeilingZero(d: seq<int>)
    requires forall i | 0 <= i < |d| :: d[i] <= 0
    ensures Sum(d) <= 0
  {
    if |d| == 0 {
    } else {
      SumCeilingZero(d[..|d| - 1]);
    }
  }

  lemma {:induction false} StandingFloor(s: Shares, n: nat, i: nat)
    requires Shared(s) && i < |s.weights|
    ensures Standing(s, n)[i] + s.denom > 0
  {
    hide Standing, Pick, Sum;
    if n == 0 {
      FirstStanding(s);
    } else {
      StandingFloor(s, n - 1, i);
      BestIsBehind(s, n - 1);
      NextStanding(s, n - 1, i);
    }
  }

  lemma StandingCeiling(s: Shares, n: nat, i: nat)
    requires Shared(s) && i < |s.weights|
    ensures Standing(s, n)[i] <= (s.denom - 1) * (|s.weights| - 1)
  {
    hide Standing, Sum;
    var c := Standing(s, n);
    StandingsBalance(s, n);
    forall j | 0 <= j < |c| ensures c[j] >= -(s.denom - 1) { StandingFloor(s, n, j); }
    SumBoundsTerm(c, -(s.denom - 1), i);
    assert -(s.denom - 1) * (|c| - 1) == -((s.denom - 1) * (|c| - 1));
  }

  /** At every prefix of the unbounded schedule no tier is a full pick ahead of its share,
      nor further behind than the others can be ahead together. */
  lemma FairAtEveryPrefix(s: Shares, n: nat, i: nat)
    requires Shared(s) && i < |s.weights|
    ensures s.denom * Picked(s, n, i) < s.weights[i] * n + s.denom
    ensures s.weights[i] * n - s.denom * Picked(s, n, i) <= (s.denom - 1) * (|s.weights| - 1)
  {
    hide Standing, Picked;
    StandingIsDeficit(s, n, i);
    StandingFloor(s, n, i);
    StandingCeiling(s, n, i);
  }

  /** A tier with no weight is never picked. */
  lemma ZeroWeightNeverPicked(s: Shares, n: nat)
    requires Shared(s)
    ensures s.weights[Pick(s, n)] > 0
  {
    hide Standing, Pick;
    BestIsBehind(s, n);
    if s.weights[Pick(s, n)] == 0 { NeverBehind(s, n, Pick(s, n)); }
  }

  lemma {:induction false} NeverBehind(s: Shares, n: nat, i: nat)
    requires |s.weights| > 0 && i < |s.weights| && s.weights[i] == 0
    ensures Standing(s, n)[i] <= 0
  {
    hide Standing, Pick;
    if n == 0 {
      FirstStanding(s);
    } else {
      NeverBehind(s, n - 1, i);
      NextStanding(s, n - 1, i);
    }
  }

  // ---------------------------------------------------------------- exactness and the period

  /** Every tier is entitled to a whole number of picks after n slots. */
  predicate WholeEntitlements(s: Shares, n: nat)
    requires s.denom > 0
  {
    forall i | 0 <= i < |s.weights| :: (s.weights[i] * n) % s.denom == 0
  }

  /** Everyone has got exactly their share. */
  predicate Settled(s: Shares, n: nat)
    requires |s.weights| > 0
  {
    Standing(s, n) == Standing(s, 0)
  }

  /** After n slots every tier has exactly its share if and only if every share is a whole
      number of picks. */
  lemma SettledIffWhole(s: Shares, n: nat)
    requires Shared(s)
    ensures Settled(s, n) <==> WholeEntitlements(s, n)
    ensures Settled(s, n) <==>
            forall i | 0 <= i < |s.weights| :: s.weights[i] * n == s.denom * Picked(s, n, i)
  {
    hide Standing, Sum, Picked;
    var c := Standing(s, n);
    forall i | 0 <= i < |c|
      ensures c[i] == s.weights[i] * n - s.denom * Picked(s, n, i)
      ensures c[i] == 0 ==> (s.weights[i] * n) % s.denom == 0
      ensures (s.weights[i] * n) % s.denom == 0 ==> c[i] >= 0
    {
      StandingIsDeficit(s, n, i);
      StandingFloor(s, n, i);
      MultipleTest(s.weights[i] * n, s.denom, Picked(s, n, i));
    }
    StandingsBalance(s, n);
    if WholeEntitlements(s, n) { ZeroSum(c); }
    FirstStanding(s);
    assert Settled(s, n) <==> forall i | 0 <= i < |c| :: c[i] == 0;
  }

  /** The defining promise of the weights: in one period of `denom` slots each tier is picked
      exactly its weight. */
  lemma PickedExactlyItsWeight(s: Shares, i: nat)
    requires Shared(s) && i < |s.weights|
    ensures Picked(s, s.denom, i) == s.weights[i]
  {
    hide Standing, Picked, Sum, Settled;
    forall j | 0 <= j < |s.weights| ensures (s.weights[j] * s.denom) % s.denom == 0 {
      DivModUnique(s.weights[j] * s.denom, s.denom, s.weights[j], 0);
    }
    SettledIffWhole(s, s.denom);
    MultipleGap(s.weights[i] - Picked(s, s.denom, i), s.denom);
  }

  /** From a slot where everyone is settled the schedule starts over. */
  lemma {:induction false} StartsOver(s: Shares, period: nat, j: nat)
    requires |s.weights| > 0 && Settled(s, period)
    ensures Standing(s, period + j) == Standing(s, j) && Pick(s, period + j) == Pick(s, j)
  {
    hide Standing, Pick;
    if j == 0 {
    } else {
      StartsOver(s, period, j - 1);
      SameNext(s, period + j - 1, j - 1);
    }
    SameNext(s, period + j, j);
  }

  lemma {:induction false} PicksAfterPeriod(s: Shares, period: nat, j: nat, i: nat)
    requires |s.weights| > 0 && Settled(s, period)
    ensures Picked(s, period + j, i) == Picked(s, period, i) + Picked(s, j, i)
  {
    hide Standing, Pick;
    if j == 0 {
    } else {
      PicksAfterPeriod(s, period, j - 1, i);
      StartsOver(s, period, j - 1);
    }
  }

  /** Slots in a number of whole cycles. */
  function Slots(cycles: nat, period: nat): nat {
    if cycles == 0 then 0 else period + Slots(cycles - 1, period)
  }

  lemma {:induction false} SlotsProduct(cycles: nat, period: nat)
    ensures Slots(cycles, period) == cycles * period
  {
    if cycles == 0 {
    } else {
      SlotsProduct(cycles - 1, period);
      Distribute(period, cycles - 1);
    }
  }

  lemma {:induction false} WholeCycles(s: Shares, period: nat, cycles: nat, j: nat)
    requires |s.weights| > 0 && Settled(s, period)
    ensures Standing(s, Slots(cycles, period) + j) == Standing(s, j)
    ensures Pick(s, Slots(cycles, period) + j) == Pick(s, j)
  {
    hide Standing, Pick, Settled;
    if cycles == 0 {
    } else {
      WholeCycles(s, period, cycles - 1, j);
      StartsOver(s, period, Slots(cycles - 1, period) + j);
    }
  }

  /** Whole cycles multiply the picks. */
  lemma {:induction false} PicksAfterCycles(s: Shares, period: nat, cycles: nat, j: nat, i: nat)
    requires |s.weights| > 0 && Settled(s, period)
    ensures Picked(s, Slots(cycles, period) + j, i) == Slots(cycles, Picked(s, period, i)) + Picked(s, j, i)
  {
    hide Standing, Pick, Picked, Settled;
    if cycles == 0 {
    } else {
      PicksAfterCycles(s, period, cycles - 1, j, i);
      PicksAfterPeriod(s, period, Slots(cycles - 1, period) + j, i);
    }
  }

  // ---------------------------------------------------------------- the wrap-around index

  /** Repeating the first `length` picks by `index % length` equals running the greedy
      selection forever. */
  ghost predicate WrapFaithful(s: Shares, length: nat)
    requires |s.weights| > 0 && length > 0
  {
    forall n: nat :: Pick(s, n) == Pick(s, n % length)
  }

  /** Every tier that gets a slot among the first `length` ends level with the highest
      standing there is after them. */
  predicate EndsLevel(s: Shares, length: nat)
    requires |s.weights| > 0
  {
    forall i, j | 0 <= i < |s.weights| && 0 <= j < |s.weights| && Picked(s, length, i) > 0 ::
      Standing(s, length)[j] <= Standing(s, length)[i]
  }

  lemma {:induction false} PickCounts(s: Shares, n: nat, slot: nat)
    requires |s.weights| > 0 && slot < n
    ensures Picked(s, n, Pick(s, slot)) > 0
  {
    hide Pick;
    if slot == n - 1 {
    } else {
      PickCounts(s, n - 1, slot);
    }
  }

  lemma {:induction false} PickedHasSlot(s: Shares, n: nat, i: nat) returns (slot: nat)
    requires |s.weights| > 0 && Picked(s, n, i) > 0
    ensures slot < n && Pick(s, slot) == i
  {
    hide Pick;
    if Pick(s, n - 1) == i {
      slot := n - 1;
    } else {
      slot := PickedHasSlot(s, n - 1, i);
    }
  }

  /** After whole cycles of the same picks a standing is a multiple of one cycle's. */
  lemma {:induction false} CyclesMultiply(s: Shares, length: nat, cycles: nat, i: nat)
    requires |s.weights| > 0 && length > 0 && WrapFaithful(s, length) && i < |s.weights|
    ensures Standing(s, Slots(cycles, length))[i] == cycles * Standing(s, length)[i]
  {
    hide Standing, Pick, WrapFaithful;
    if cycles == 0 {
      FirstStanding(s);
    } else {
      CyclesMultiply(s, length, cycles - 1, i);
      SamePicks(s, length, cycles - 1, length, i);
      Distribute(Standing(s, length)[i], cycles - 1);
    }
  }

  lemma {:induction false} SamePicks(s: Shares, length: nat, cycles: nat, j: nat, i: nat)
    requires |s.weights| > 0 && length > 0 && WrapFaithful(s, length) && i < |s.weights|
    requires j <= length
    ensures Standing(s, Slots(cycles, length) + j)[i] == Standing(s, Slots(cycles, length))[i] + Standing(s, j)[i]
  {
    hide Standing, Pick, Slots;
    if j == 0 {
      FirstStanding(s);
    } else {
      var n := Slots(cycles, length) + (j - 1);
      SamePicks(s, length, cycles, j - 1, i);
      SlotsProduct(cycles, length);
      DivModUnique(n, length, cycles, j - 1);
      assert Pick(s, n) == Pick(s, n % length);
      NextStanding(s, n, i);
      NextStanding(s, j - 1, i);
    }
  }

  /** Under a repeating schedule a tier that ends above another that is picked would have
      overtaken it for good. */
  lemma WrapEndsLevel(s: Shares, length: nat)
    requires |s.weights| > 0 && length > 0 && WrapFaithful(s, length)
    ensures EndsLevel(s, length)
  {
    hide Standing, Pick, Picked, WrapFaithful, Due, Slots, Best;
    forall i, j | 0 <= i < |s.weights| && 0 <= j < |s.weights| && Picked(s, length, i) > 0
      ensures Standing(s, length)[j] <= Standing(s, length)[i]
    {
      var slot := PickedHasSlot(s, length, i);
      PickIsAhead(s, slot, j);
      var lead := Due(s, slot)[i] - Due(s, slot)[j];
      var cycles: nat := lead + 1;
      DueAfterCycles(s, length, cycles, slot, i);
      DueAfterCycles(s, length, cycles, slot, j);
      PickIsAhead(s, Slots(cycles, length) + slot, j);
      SlotsProduct(cycles, length);
      DivModUnique(Slots(cycles, length) + slot, length, cycles, slot);
      WrapPick(s, length, Slots(cycles, length) + slot);
      var gap := Standing(s, length)[j] - Standing(s, length)[i];
      assert cycles * gap == cycles * Standing(s, length)[j] - cycles * Standing(s, length)[i];
      assert cycles * gap <= lead;
      MultipleGap(gap, cycles);
    }
  }

  lemma WrapPick(s: Shares, length: nat, n: nat)
    requires |s.weights| > 0 && length > 0 && WrapFaithful(s, length)
    ensures Pick(s, n) == Pick(s, n % length)
  {
    hide Pick;
  }

  lemma PickIsAhead(s: Shares, n: nat, j: nat)
    requires |s.weights| > 0 && j < |s.weights|
    ensures Due(s, n)[j] <= Due(s, n)[Pick(s, n)]
  {
    hide Due, Best;
    BestIsFurthest(Due(s, n));
  }

  lemma DueAfterCycles(s: Shares, length: nat, cycles: nat, slot: nat, i: nat)
    requires |s.weights| > 0 && length > 0 && WrapFaithful(s, length) && i < |s.weights| && slot < length
    ensures Due(s, Slots(cycles, length) + slot)[i] == cycles * Standing(s, length)[i] + Due(s, slot)[i]
  {
    hide Standing, Pick, WrapFaithful, Due, Slots;
    CyclesMultiply(s, length, cycles, i);
    SamePicks(s, length, cycles, slot, i);
    NextIsAward(s, slot);
    NextIsAward(s, Slots(cycles, length) + slot);
  }

  /** `c'` is `c` raised by a constant for the tiers in use, and by no more for the others. */
  predicate RaisedBy(c: seq<int>, c': seq<int>, used: set<nat>, raise: int) {
    && |c| == |c'|
    && forall i: nat | i < |c| :: c'[i] <= c[i] + raise && (i in used ==> c'[i] == c[i] + raise)
  }

  /** The tiers that get one of the first `length` slots. */
  function Used(s: Shares, length: nat): set<nat>
    requires |s.weights| > 0
  {
    set i: nat | i < |s.weights| && Picked(s, length, i) > 0
  }

  /** If the tier to be awarded is in use, the raise changes neither that nor itself. */
  lemma RaisedAward(d: seq<int>, d': seq<int>, denom: nat, used: set<nat>, raise: int)
    requires |d| > 0 && RaisedBy(d, d', used, raise) && Best(d) in used
    ensures Best(d') == Best(d)
    ensures RaisedBy(Award(d, denom), Award(d', denom), used, raise)
  {
    hide Best;
    BestIsFurthest(d);
    BestIsOnly(d', Best(d));
  }

  lemma RaisedDue(s: Shares, from: nat, to: nat, used: set<nat>, raise: int)
    requires |s.weights| > 0 && RaisedBy(Standing(s, from), Standing(s, to), used, raise)
    ensures RaisedBy(Due(s, from), Due(s, to), used, raise)
  {
    hide Standing, Due;
    NextIsAward(s, from);
    NextIsAward(s, to);
  }

  /** A raise of the start leaves one whole cycle as it was. */
  lemma {:induction false} RaisedCycle(s: Shares, to: nat, length: nat, j: nat, raise: int)
    requires |s.weights| > 0 && j <= length
    requires RaisedBy(Standing(s, 0), Standing(s, to), Used(s, length), raise)
    ensures RaisedBy(Standing(s, j), Standing(s, to + j), Used(s, length), raise)
    ensures j < length ==> Pick(s, to + j) == Pick(s, j)
  {
    hide Standing, Due, Best, Award, Picked, RaisedBy;
    if j == 0 {
    } else {
      RaisedCycle(s, to, length, j - 1, raise);
      RaisedSlot(s, to + (j - 1), j - 1, length, raise);
    }
    if j < length { RaisedSlot(s, to + j, j, length, raise); }
  }

  lemma RaisedSlot(s: Shares, to: nat, slot: nat, length: nat, raise: int)
    requires |s.weights| > 0 && slot < length
    requires RaisedBy(Standing(s, slot), Standing(s, to), Used(s, length), raise)
    ensures Pick(s, to) == Pick(s, slot)
    ensures RaisedBy(Standing(s, slot + 1), Standing(s, to + 1), Used(s, length), raise)
  {
    hide Standing, Due, Best, Award, Picked, RaisedBy;
    PickCounts(s, length, slot);
    RaisedDue(s, slot, to, Used(s, length), raise);
    RaisedAward(Due(s, slot), Due(s, to), s.denom, Used(s, length), raise);
    NextIsAward(s, slot);
    NextIsAward(s, to);
  }

  lemma RaisedTwice(a: seq<int>, b: seq<int>, c: seq<int>, used: set<nat>, first: int, second: int)
    requires RaisedBy(a, b, used, first) && RaisedBy(b, c, used, second)
    ensures RaisedBy(a, c, used, first + second)
  {
  }

  lemma NotRaised(c: seq<int>, used: set<nat>)
    ensures RaisedBy(c, c, used, 0)
  {
  }

  /** One cycle that ends level raises everybody it used alike. */
  lemma LevelRaises(s: Shares, length: nat) returns (raise: int)
    requires |s.weights| > 0 && length > 0 && EndsLevel(s, length)
    ensures RaisedBy(Standing(s, 0), Standing(s, length), Used(s, length), raise)
  {
    hide Standing, Pick, Picked;
    PickCounts(s, length, 0);
    FirstStanding(s);
    raise := Standing(s, length)[Pick(s, 0)];
  }

  lemma {:induction false} LevelCycles(s: Shares, length: nat, cycles: nat, raise: int)
    requires |s.weights| > 0 && RaisedBy(Standing(s, 0), Standing(s, length), Used(s, length), raise)
    ensures RaisedBy(Standing(s, 0), Standing(s, Slots(cycles, length)), Used(s, length), cycles * raise)
  {
    hide Standing, Used, RaisedBy;
    if cycles == 0 {
      NotRaised(Standing(s, 0), Used(s, length));
    } else {
      var prev := Slots(cycles - 1, length);
      LevelCycles(s, length, cycles - 1, raise);
      RaisedCycle(s, prev, length, length, (cycles - 1) * raise);
      RaisedTwice(Standing(s, 0), Standing(s, length), Standing(s, prev + length), Used(s, length),
                  raise, (cycles - 1) * raise);
      Distribute(raise, cycles - 1);
    }
  }

  lemma LevelWraps(s: Shares, length: nat, raise: int, n: nat)
    requires |s.weights| > 0 && length > 0
    requires RaisedBy(Standing(s, 0), Standing(s, length), Used(s, length), raise)
    ensures Pick(s, n) == Pick(s, n % length)
  {
    hide Standing, Pick, Slots, RaisedBy, Used;
    var q, r := n / length, n % length;
    SlotsProduct(q, length);
    assert n == q * length + r;
    LevelCycles(s, length, q, raise);
    RaisedCycle(s, Slots(q, length), length, r, q * raise);
  }

  /** The wrap-around index is sound, for any weights whatever, exactly when every tier the
      sequence uses ends level with the highest standing. */
  lemma WrapFaithfulIffLevel(s: Shares, length: nat)
    requires |s.weights| > 0 && length > 0
    ensures WrapFaithful(s, length) <==> EndsLevel(s, length)
  {
    hide Standing, Pick, EndsLevel, Slots, RaisedBy, Used;
    if EndsLevel(s, length) {
      var raise := LevelRaises(s, length);
      forall n: nat ensures Pick(s, n) == Pick(s, n % length) { LevelWraps(s, length, raise, n); }
    }
    if WrapFaithful(s, length) { WrapEndsLevel(s, length); }
  }

  /** For shares that add up to one pick a slot, that means the sequence's length gives every
      tier a whole number of picks. */
  lemma WrapFaithfulIff(s: Shares, length: nat)
    requires Shared(s) && length > 0
    ensures WrapFaithful(s, length) <==> WholeEntitlements(s, length)
  {
    hide Standing, Pick, Sum, WholeEntitlements, WrapFaithful, EndsLevel;
    SettledIffWhole(s, length);
    WrapFaithfulIffLevel(s, length);
    if EndsLevel(s, length) { LevelSettles(s, length); }
    if Settled(s, length) { SettledLevel(s, length); }
  }

  lemma SettledLevel(s: Shares, length: nat)
    requires |s.weights| > 0 && Settled(s, length)
    ensures EndsLevel(s, length)
  {
    hide Standing, Picked;
    FirstStanding(s);
  }

  /** Standings add up to nothing and an unused tier is never in debt, so when the used ones
      end level nobody is owed anything. */
  lemma LevelSettles(s: Shares, length: nat)
    requires Shared(s) && length > 0 && EndsLevel(s, length)
    ensures Settled(s, length)
  {
    hide Standing, Pick, Picked, Sum;
    var c := Standing(s, length);
    var top := Pick(s, 0);
    PickCounts(s, length, 0);
    StandingsBalance(s, length);
    forall i | 0 <= i < |c| ensures c[i] >= 0 {
      StandingIsDeficit(s, length, i);
      if Picked(s, length, i) > 0 {
        assert c[i] == c[top];
        if c[top] < 0 { SumCeiling(c); }
      }
    }
    ZeroSum(c);
    FirstStanding(s);
  }

  lemma {:induction false} SumCeiling(d: seq<int>)
    requires |d| > 0 && forall i | 0 <= i < |d| :: d[i] < 0
    ensures Sum(d) < 0
  {
    if |d| == 1 {
      assert Sum(d[..0]) == 0;
    } else {
      SumCeiling(d[..|d| - 1]);
    }
  }
}
