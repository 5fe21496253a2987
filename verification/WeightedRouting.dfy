/** Weighted routing: the configured sequence, computed slot by slot, and the wrap-around
    index into it. */
module WeightedRouting {
  import opened Arithmetic
  import opened Counting
  import opened Ledger
  import opened WeightedSchedule

  const WEIGHTED_POLICY := "weighted"
  const WEIGHTED_REASON := "weighted_distribution"

  function WeightedReceipt(model: string): Receipt {
    Receipt(model, WEIGHTED_REASON, WEIGHTED_POLICY, None, None)
  }

  /** Percentages over 100. */
  function PercentShares(pcts: seq<nat>): Shares {
    Shares(pcts, 100)
  }

  /** Number of slots in the configured sequence: sum of `pct // 10`. */
  function SequenceLength(pcts: seq<nat>): nat {
    if |pcts| == 0 then 0
    else SequenceLength(pcts[..|pcts| - 1]) + pcts[|pcts| - 1] / 10
  }

  /** What `weighted_sequence` is to return: the greedy schedule's first slots. */
  predicate IsSequence(pcts: seq<nat>, sequence: seq<nat>) {
    && |sequence| == SequenceLength(pcts)
    && (|pcts| > 0 ==> forall n | 0 <= n < |sequence| :: sequence[n] == Pick(PercentShares(pcts), n))
  }

  /** `d[..m]` has its first maximum at `best`. */
  predicate BestSoFar(d: seq<int>, m: nat, best: Option<nat>)
    requires m <= |d|
  {
    match best
    case None => m == 0
    case Some(k) => k < m && FurthestBehind(d[..m], k)
  }

  /** The configured sequence, computed slot by slot from the deficits. The source compares
      floating deficits with a tolerance of 1e-9; scaled by 100 the comparison is exact. */
  method WeightedSequence(pcts: seq<nat>) returns (sequence: seq<nat>)
    ensures IsSequence(pcts, sequence)
  {
    var total := TotalSlots(pcts);
    if |pcts| == 0 {
      return [];
    }
    sequence := FillSlots(pcts, total);
  }

  method FillSlots(pcts: seq<nat>, total: nat) returns (sequence: seq<nat>)
    requires |pcts| > 0
    ensures |sequence| == total
    ensures forall n | 0 <= n < total :: sequence[n] == Pick(PercentShares(pcts), n)
  {
    hide Standing, Best, Pick, Picked;
    ghost var s := PercentShares(pcts);
    var picked := seq(|pcts|, _ => 0);
    sequence := [];
    PickedStart(s);
    while |sequence| < total
      invariant |sequence| <= total && |picked| == |pcts|
      invariant forall n | 0 <= n < |sequence| :: sequence[n] == Pick(s, n)
      invariant forall i | 0 <= i < |pcts| :: picked[i] == Picked(s, |sequence|, i)
    {
      var best := FindFurthestBehind(pcts, |sequence|, picked);
      PickedNext(s, |sequence|);
      sequence := sequence + [best];
      picked := picked[best := picked[best] + 1];
    }
  }

  method TotalSlots(pcts: seq<nat>) returns (total: nat)
    ensures total == SequenceLength(pcts)
  {
    total := 0;
    for i := 0 to |pcts|
      invariant total == SequenceLength(pcts[..i])
    {
      assert pcts[..i + 1][..i] == pcts[..i];
      total := total + pcts[i] / 10;
    }
    assert pcts[..|pcts|] == pcts;
  }

  lemma PickedStart(s: Shares)
    requires |s.weights| > 0
    ensures forall i :: Picked(s, 0, i) == 0
  {
  }

  lemma PickedNext(s: Shares, n: nat)
    requires |s.weights| > 0
    ensures forall i :: Picked(s, n + 1, i) == Picked(s, n, i) + (if Pick(s, n) == i then 1 else 0)
  {
  }

  /** One slot's selection: scan the tiers and keep the first one furthest behind. */
  method FindFurthestBehind(pcts: seq<nat>, filled: nat, picked: seq<int>) returns (k: nat)
    requires |pcts| == |picked| > 0
    requires forall i | 0 <= i < |pcts| :: picked[i] == Picked(PercentShares(pcts), filled, i)
    ensures k == Pick(PercentShares(pcts), filled)
  {
    hide Picked, Standing, Best;
    ghost var d := Due(PercentShares(pcts), filled);
    var n := filled + 1;
    var best: Option<nat> := None;
    var bestDeficit := 0;
    for i := 0 to |pcts|
      invariant BestSoFar(d, i, best)
      invariant best.Some? ==> bestDeficit == d[best.value]
    {
      var deficit := pcts[i] * n - 100 * picked[i];
      DueIsDeficit(pcts, filled, i);
      if best == None || deficit > bestDeficit {
        best, bestDeficit := Some(i), deficit;
      }
    }
    assert d[..|pcts|] == d;
    BestIsOnly(d, best.value);
    k := best.value;
  }

  lemma DueIsDeficit(pcts: seq<nat>, filled: nat, i: nat)
    requires i < |pcts|
    ensures Due(PercentShares(pcts), filled)[i]
            == pcts[i] * (filled + 1) - 100 * Picked(PercentShares(pcts), filled, i)
  {
    hide Standing, Picked, Due;
    var s := PercentShares(pcts);
    NextIsAward(s, filled);
    StandingIsDeficit(s, filled, i);
    Distribute(pcts[i], filled);
  }

  // ---------------------------------------------------------------- the wrap-around index

  /** The tier at a sequence index; an empty sequence cannot be indexed. */
  function RouteWeighted<T>(sequence: seq<T>, index: nat): Option<T> {
    if |sequence| == 0 then None else Some(sequence[index % |sequence|])
  }

  /** The sequence as it stands, and from its end on the same again. */
  lemma RouteWeightedCycles<T>(sequence: seq<T>, index: nat)
    requires |sequence| > 0
    ensures index < |sequence| ==> RouteWeighted(sequence, index) == Some(sequence[index])
    ensures RouteWeighted(sequence, index + |sequence|) == RouteWeighted(sequence, index)
  {
    var length := |sequence|;
    if index < length { DivModUnique(index, length, 0, index); }
    assert index + length == (index / length + 1) * length + index % length;
    DivModUnique(index + length, length, index / length + 1, index % length);
  }

  /** The configured slots are the whole tens of each percentage; the rest is dropped. */
  lemma {:induction false} SlotsDropRemainders(pcts: seq<nat>)
    ensures 10 * SequenceLength(pcts) + Sum(seq(|pcts|, i requires 0 <= i < |pcts| => pcts[i] % 10)) == Sum(pcts)
  {
    var rest := seq(|pcts|, i requires 0 <= i < |pcts| => pcts[i] % 10);
    if |pcts| == 0 {
    } else {
      var n := |pcts| - 1;
      SlotsDropRemainders(pcts[..n]);
      assert rest[..n] == seq(n, i requires 0 <= i < n => pcts[..n][i] % 10);
    }
  }

  /** The routed tier is the greedy selection's, at every index. */
  ghost predicate RoutedIsGreedy(pcts: seq<nat>, sequence: seq<nat>) {
    |pcts| > 0 && forall n: nat :: RouteWeighted(sequence, n) == Some(Pick(PercentShares(pcts), n))
  }

  /** What a tier is still owed, in hundredths of a pick, after one pass of the sequence. */
  function Owed(pcts: seq<nat>, sequence: seq<nat>, i: nat): int
    requires i < |pcts|
  {
    pcts[i] * |sequence| - 100 * CountIf(sequence, (t: nat) => t == i)
  }

  /** No tier is owed more than one that the sequence uses. */
  predicate UsedOwedMost(pcts: seq<nat>, sequence: seq<nat>) {
    forall i, j | 0 <= i < |pcts| && 0 <= j < |pcts| && i in sequence ::
      Owed(pcts, sequence, j) <= Owed(pcts, sequence, i)
  }

  lemma {:induction false} SequenceCounts(s: Shares, sequence: seq<nat>, i: nat)
    requires |s.weights| > 0 && forall n | 0 <= n < |sequence| :: sequence[n] == Pick(s, n)
    ensures CountIf(sequence, (t: nat) => t == i) == Picked(s, |sequence|, i)
    ensures i in sequence <==> Picked(s, |sequence|, i) > 0
  {
    hide Pick;
    if |sequence| == 0 {
    } else {
      var init, last := sequence[..|sequence| - 1], sequence[|sequence| - 1];
      assert sequence == init + [last];
      SequenceCounts(s, init, i);
      CountSnoc(init, last, (t: nat) => t == i);
    }
  }

  lemma OwedIsStanding(pcts: seq<nat>, sequence: seq<nat>, i: nat)
    requires IsSequence(pcts, sequence) && i < |pcts|
    ensures Owed(pcts, sequence, i) == Standing(PercentShares(pcts), |sequence|)[i]
    ensures i in sequence <==> Picked(PercentShares(pcts), |sequence|, i) > 0
  {
    hide Standing, Pick, Picked, CountIf;
    SequenceCounts(PercentShares(pcts), sequence, i);
    StandingIsDeficit(PercentShares(pcts), |sequence|, i);
  }

  /** Wrapping the configured sequence equals running the greedy selection forever, at every
      index and for any percentages, exactly when it is not empty and no tier is owed more
      after one pass than a tier it uses. Percentages that add up to 100 meet this exactly
      when 100 divides every pct * length. */
  lemma RoutedIsGreedyIff(pcts: seq<nat>, sequence: seq<nat>)
    requires IsSequence(pcts, sequence)
    ensures RoutedIsGreedy(pcts, sequence) <==> |sequence| > 0 && UsedOwedMost(pcts, sequence)
    ensures Sum(pcts) == 100 ==>
              (RoutedIsGreedy(pcts, sequence)
               <==> |sequence| > 0 && forall i | 0 <= i < |pcts| :: (pcts[i] * |sequence|) % 100 == 0)
  {
    hide Pick, Standing, Picked, Sum, Owed, WrapFaithful, EndsLevel, UsedOwedMost;
    if |sequence| == 0 {
      assert RouteWeighted(sequence, 0) == None;
    } else {
      WrapFaithfulIffLevel(PercentShares(pcts), |sequence|);
      if Sum(pcts) == 100 { WrapFaithfulIff(PercentShares(pcts), |sequence|); }
      GreedyIsWrap(pcts, sequence);
      LevelIsOwed(pcts, sequence);
    }
  }

  lemma GreedyIsWrap(pcts: seq<nat>, sequence: seq<nat>)
    requires IsSequence(pcts, sequence) && |sequence| > 0 && |pcts| > 0
    ensures RoutedIsGreedy(pcts, sequence) <==> WrapFaithful(PercentShares(pcts), |sequence|)
  {
    hide Pick;
    var s := PercentShares(pcts);
    forall n: nat ensures RouteWeighted(sequence, n) == Some(Pick(s, n % |sequence|)) { }
  }

  lemma LevelIsOwed(pcts: seq<nat>, sequence: seq<nat>)
    requires IsSequence(pcts, sequence) && |sequence| > 0 && |pcts| > 0
    ensures UsedOwedMost(pcts, sequence) <==> EndsLevel(PercentShares(pcts), |sequence|)
  {
    hide Pick, Standing, Picked, Owed;
    forall i | 0 <= i < |pcts|
      ensures Owed(pcts, sequence, i) == Standing(PercentShares(pcts), |sequence|)[i]
      ensures i in sequence <==> Picked(PercentShares(pcts), |sequence|, i) > 0
    {
      OwedIsStanding(pcts, sequence, i);
    }
  }
}
