/** The configured weights 50 / 30 / 20: the ten-slot sequence they yield, and exactly which
    totals the validation endpoint accepts. */
module PinnedWeights {
  import opened Arithmetic
  import opened Counting
  import opened WeightedSchedule
  import opened WeightedRouting
  import opened RoutingBatches

  const WEIGHTS: seq<nat> := [50, 30, 20]

  /** econo-mini, balanced-std, premium-max by position. */
  const SEQUENCE: seq<nat> := [0, 1, 2, 0, 0, 1, 0, 2, 1, 0]

  const STANDINGS: seq<seq<int>> := [
    [0, 0, 0], [-50, 30, 20], [0, -40, 40], [50, -10, -40], [0, 20, -20], [-50, 50, 0],
    [0, -20, 20], [-50, 10, 40], [0, 40, -40], [50, -30, -20], [0, 0, 0]]

  function Pinned(): Shares {
    PercentShares(WEIGHTS)
  }

  lemma Furthest3(d: seq<int>, k: nat)
    requires |d| == 3 && k < 3
    requires d[0] <= d[k] && d[1] <= d[k] && d[2] <= d[k]
    requires (k >= 1 ==> d[0] < d[k]) && (k == 2 ==> d[1] < d[k])
    ensures Best(d) == k
  {
    BestIsOnly(d, k);
  }

  lemma {:induction false} PinnedStanding(n: nat)
    requires n <= 10
    ensures Standing(Pinned(), n) == STANDINGS[n]
    ensures n < 10 ==> Pick(Pinned(), n) == SEQUENCE[n]
  {
    hide Standing, Best, Due, Award;
    if n == 0 {
      FirstStanding(Pinned());
    } else {
      PinnedStanding(n - 1);
      forall i | 0 <= i < 3 ensures Standing(Pinned(), n)[i] == STANDINGS[n][i] {
        NextStanding(Pinned(), n - 1, i);
      }
    }
    if n < 10 {
      NextIsAward(Pinned(), n);
      Furthest3(Due(Pinned(), n), SEQUENCE[n]);
    }
  }

  lemma PinnedSum()
    ensures Sum(WEIGHTS) == 100
  {
    assert WEIGHTS[..2] == [50, 30];
    assert [50, 30][..1] == [50] && [50][..0] == [];
    assert Sum([50]) == 50;
    assert Sum([50, 30]) == 80;
  }

  /** The configured sequence, as the policy endpoint shows it. */
  lemma PinnedSequence(sequence: seq<nat>)
    requires IsSequence(WEIGHTS, sequence)
    ensures sequence == SEQUENCE
  {
    hide Standing, Pick, SequenceLength;
    PinnedSum();
    TensFillTenSlots(WEIGHTS);
    forall n | 0 <= n < 10 ensures sequence[n] == SEQUENCE[n] { PinnedStanding(n); }
  }

  lemma PinnedSettled()
    ensures Settled(Pinned(), 10)
  {
    hide Standing;
    PinnedStanding(10);
    PinnedStanding(0);
  }

  /** The standings at any total, from the total's last digit. */
  lemma PinnedStandingAt(total: nat)
    ensures Standing(Pinned(), total) == STANDINGS[total % 10]
  {
    hide Standing, Pick, Settled, Slots, Best;
    var q, r := total / 10, total % 10;
    PinnedSettled();
    PinnedStanding(r);
    SlotsProduct(q, 10);
    WholeCycles(Pinned(), 10, q, r);
  }

  /** Validation accepts the schedule's own counts at every total except those that end in
      1, 3, 5, 17 or 19 modulo 20, where rounding the expectation disagrees with the greedy
      counts. Multiples of ten are always accepted. */
  lemma PinnedMatchIff(total: nat, counts: seq<nat>)
    requires ScheduleCounts(Pinned(), total, counts)
    ensures AllMatch(WEIGHTS, counts) <==> total % 20 !in {1, 3, 5, 17, 19}
  {
    hide Picked, Standing, Pick, NearShare, AllMatch;
    MatchIff(WEIGHTS, total, counts);
    PinnedStandingAt(total);
    forall t | 0 <= t < 3 ensures 100 * counts[t] == WEIGHTS[t] * total - STANDINGS[total % 10][t] {
      StandingIsDeficit(Pinned(), total, t);
    }
    FirstTier(total, counts[0]);
    SecondTier(total, counts[1]);
    ThirdTier(total, counts[2]);
  }

  lemma Parity(x: int, q: int, k: nat)
    requires x == 2 * q + k && k < 2
    ensures x % 2 == k
  {
  }

  /** The last digit and the parity of the tens give the remainder modulo 20. */
  lemma ModTwenty(total: nat)
    ensures total % 20 == 10 * (total / 10 % 2) + total % 10
  {
    var tens := total / 10;
    DivModUnique(total, 20, tens / 2, 10 * (tens % 2) + total % 10);
  }

  /** Picks of the first tier below ten slots, where it is at a tie. */
  function TiePicks(digit: nat): nat {
    if digit <= 3 then 1 else if digit == 5 then 3 else 4
  }

  lemma FirstTies(digit: nat)
    requires digit < 10
    ensures digit % 2 == 0 ==> STANDINGS[digit][0] == 0
    ensures digit % 2 == 1 ==> STANDINGS[digit][0] == 50 || STANDINGS[digit][0] == -50
    ensures digit % 2 == 1 ==> 50 * digit - STANDINGS[digit][0] == 100 * TiePicks(digit)
  {
  }

  /** The first tier is at a tie on every odd total. */
  lemma FirstTier(total: nat, count: nat)
    requires 100 * count == 50 * total - STANDINGS[total % 10][0]
    ensures NearShare(STANDINGS[total % 10][0], count) <==> total % 20 !in {1, 3, 5, 17, 19}
  {
    FirstTies(total % 10);
    ModTwenty(total);
    if total % 10 % 2 == 1 { FirstTie(total / 10, total % 10, count); }
  }

  lemma FirstTie(tens: nat, digit: nat, count: nat)
    requires digit < 10 && digit % 2 == 1 && count == 5 * tens + TiePicks(digit)
    ensures count % 2 == 0 <==> 10 * (tens % 2) + digit !in {1, 3, 5, 17, 19}
  {
    var q, k := tens / 2, tens % 2;
    var odd := (5 * k + TiePicks(digit)) % 2;
    Parity(count, 5 * q + (5 * k + TiePicks(digit)) / 2, odd);
  }

  lemma SecondTies(digit: nat)
    requires digit < 10
    ensures digit == 5 ==> STANDINGS[digit][1] == 50
    ensures digit != 5 ==> -50 < STANDINGS[digit][1] < 50
  {
  }

  /** The second tier is at a tie on totals that end in 5. */
  lemma SecondTier(total: nat, count: nat)
    requires 100 * count == 30 * total - STANDINGS[total % 10][1]
    ensures NearShare(STANDINGS[total % 10][1], count) <==> total % 20 != 5
  {
    SecondTies(total % 10);
    ModTwenty(total);
    if total % 10 == 5 {
      var q, k := total / 10 / 2, total / 10 % 2;
      Parity(count, 3 * q + 2 * k, (1 + k) % 2);
    }
  }

  lemma ThirdTier(total: nat, count: nat)
    ensures NearShare(STANDINGS[total % 10][2], count)
  {
    ThirdNeverTies(total % 10);
  }

  lemma ThirdNeverTies(digit: nat)
    requires digit < 10
    ensures -50 < STANDINGS[digit][2] < 50
  {
  }
}
