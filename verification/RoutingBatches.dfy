/** Concurrent weighted batches over one Redis sequence counter. Each batch repeats three
    atomic steps per request: take an index and route, insert the receipt, tally the tier.
    Any number of batches interleave in any order. */
module RoutingBatches {
  import opened Arithmetic
  import opened Counting
  import opened Ledger
  import opened WeightedSchedule
  import opened WeightedRouting

  datatype Phase = Idle | Routed(tier: nat) | Stored(tier: nat)

  /** A batch client: requests still to finish, and where it is in the current one. */
  datatype Batch = Batch(remaining: nat, phase: Phase)

  /** The shared stores and the clients. `receipts[t]` counts tier t's weighted receipts. */
  datatype System = System(
    nextIndex: nat, counters: seq<nat>, receipts: seq<nat>, batches: seq<Batch>)

  predicate WellFormed(s: Shares, y: System) {
    && |y.counters| == |y.receipts| == |s.weights|
    && forall i | 0 <= i < |y.batches| :: WellFormedBatch(s, y.batches[i])
  }

  predicate WellFormedBatch(s: Shares, b: Batch) {
    b.phase == Idle || (b.remaining > 0 && b.phase.tier < |s.weights|)
  }

  /** A clean start: counters reset, every batch still to begin. */
  predicate Clean(s: Shares, y: System) {
    && WellFormed(s, y)
    && y.nextIndex == 0
    && (forall t | 0 <= t < |y.counters| :: y.counters[t] == 0 && y.receipts[t] == 0)
    && forall i | 0 <= i < |y.batches| :: y.batches[i].phase == Idle
  }

  /** Let batch i take its next atomic step; a finished or unknown batch takes none. */
  function Step(s: Shares, sequence: seq<nat>, y: System, i: nat): System
    requires |sequence| > 0 && WellFormed(s, y)
  {
    if i >= |y.batches| then y
    else
      var b := y.batches[i];
      match b.phase
      case Idle =>
        if b.remaining == 0 then y
        else y.(nextIndex := y.nextIndex + 1,
                batches := y.batches[i := b.(phase := Routed(RouteWeighted(sequence, y.nextIndex).value))])
      case Routed(t) =>
        y.(receipts := y.receipts[t := y.receipts[t] + 1],
           batches := y.batches[i := b.(phase := Stored(t))])
      case Stored(t) =>
        y.(counters := y.counters[t := y.counters[t] + 1],
           batches := y.batches[i := Batch(b.remaining - 1, Idle)])
  }

  /** A configured, non-empty sequence whose wrap-around is sound. */
  ghost predicate Configured(s: Shares, sequence: seq<nat>) {
    && |s.weights| > 0 && |sequence| > 0
    && (forall n | 0 <= n < |sequence| :: sequence[n] == Pick(s, n))
    && WrapFaithful(s, |sequence|)
  }

  function InPhase(p: Phase): Batch -> bool {
    (b: Batch) => b.phase == p
  }

  function InFlight(y: System, t: nat): nat {
    CountIf(y.batches, InPhase(Routed(t))) + CountIf(y.batches, InPhase(Stored(t)))
  }

  /** What every step of every interleaving keeps: a tier's counter plus its requests in
      flight is what the schedule has handed out, and receipts run ahead of the counter by
      the requests stored but not yet tallied. */
  predicate Conserved(s: Shares, y: System)
    requires |s.weights| > 0
  {
    && WellFormed(s, y)
    && forall t | 0 <= t < |s.weights| ::
         && y.counters[t] + InFlight(y, t) == Picked(s, y.nextIndex, t)
         && y.receipts[t] == y.counters[t] + CountIf(y.batches, InPhase(Stored(t)))
  }

  lemma CleanConserved(s: Shares, y: System)
    requires |s.weights| > 0 && Clean(s, y)
    ensures Conserved(s, y)
  {
    hide CountIf, Standing, Pick;
    forall t | 0 <= t < |s.weights|
      ensures CountIf(y.batches, InPhase(Routed(t))) == 0 && CountIf(y.batches, InPhase(Stored(t))) == 0
    {
      CountZero(y.batches, InPhase(Routed(t)));
      CountZero(y.batches, InPhase(Stored(t)));
    }
  }

  lemma RoutedIsPick(s: Shares, sequence: seq<nat>, n: nat)
    requires Configured(s, sequence)
    ensures RouteWeighted(sequence, n) == Some(Pick(s, n))
  {
    hide Pick;
  }

  /** Moving batch i between phases moves the in-flight counts with it. */
  lemma PhaseMoves(y: System, i: nat, b': Batch, t: nat)
    requires i < |y.batches|
    ensures var y' := y.(batches := y.batches[i := b']);
            var b := y.batches[i];
            && CountIf(y'.batches, InPhase(Routed(t))) + (if b.phase == Routed(t) then 1 else 0)
               == CountIf(y.batches, InPhase(Routed(t))) + (if b'.phase == Routed(t) then 1 else 0)
            && CountIf(y'.batches, InPhase(Stored(t))) + (if b.phase == Stored(t) then 1 else 0)
               == CountIf(y.batches, InPhase(Stored(t))) + (if b'.phase == Stored(t) then 1 else 0)
  {
    hide CountIf;
    CountUpdate(y.batches, i, b', InPhase(Routed(t)));
    CountUpdate(y.batches, i, b', InPhase(Stored(t)));
  }

  lemma StepConserves(s: Shares, sequence: seq<nat>, y: System, i: nat)
    requires Configured(s, sequence) && Conserved(s, y)
    ensures Conserved(s, Step(s, sequence, y, i))
  {
    hide CountIf, Standing, Pick, Picked, WrapFaithful;
    var y' := Step(s, sequence, y, i);
    if i < |y.batches| {
      RoutedIsPick(s, sequence, y.nextIndex);
      PickedNext(s, y.nextIndex);
      forall t | 0 <= t < |s.weights|
        ensures y'.counters[t] + InFlight(y', t) == Picked(s, y'.nextIndex, t)
        ensures y'.receipts[t] == y'.counters[t] + CountIf(y'.batches, InPhase(Stored(t)))
      {
        PhaseMoves(y, i, y'.batches[i], t);
        assert y'.batches == y.batches[i := y'.batches[i]];
      }
    }
  }

  /** Requests not yet handed an index. */
  function Unrouted(batches: seq<Batch>): nat {
    if |batches| == 0 then 0
    else
      var b := batches[|batches| - 1];
      Unrouted(batches[..|batches| - 1])
      + (if b.phase == Idle || b.remaining == 0 then b.remaining else b.remaining - 1)
  }

  lemma {:induction false} UnroutedUpdate(batches: seq<Batch>, i: nat, b: Batch)
    requires i < |batches|
    ensures Unrouted(batches[i := b]) + Unrouted([batches[i]]) == Unrouted(batches) + Unrouted([b])
  {
    var init := batches[..|batches| - 1];
    if i < |init| {
      assert batches[i := b][..|init|] == init[i := b];
      UnroutedUpdate(init, i, b);
    } else {
      assert batches[i := b][..|init|] == init;
    }
  }

  /** The counter hands out one index per request, no more. */
  lemma StepKeepsTotal(s: Shares, sequence: seq<nat>, y: System, i: nat)
    requires |sequence| > 0 && WellFormed(s, y)
    ensures var y' := Step(s, sequence, y, i);
            y'.nextIndex + Unrouted(y'.batches) == y.nextIndex + Unrouted(y.batches)
  {
    var y' := Step(s, sequence, y, i);
    if i < |y.batches| && y' != y {
      UnroutedUpdate(y.batches, i, y'.batches[i]);
    }
  }

  /** Every interleaving: the schedule names, step by step, the batch that moves. */
  function Run(s: Shares, sequence: seq<nat>, y: System, schedule: seq<nat>): (y': System)
    requires |sequence| > 0 && WellFormed(s, y)
    requires forall n | 0 <= n < |sequence| :: sequence[n] < |s.weights|
    ensures WellFormed(s, y')
  {
    if |schedule| == 0 then y
    else Step(s, sequence, Run(s, sequence, y, schedule[..|schedule| - 1]), schedule[|schedule| - 1])
  }

  lemma {:induction false} RunConserves(s: Shares, sequence: seq<nat>, y: System, schedule: seq<nat>)
    requires Configured(s, sequence) && Clean(s, y)
    ensures Conserved(s, Run(s, sequence, y, schedule))
    ensures var y' := Run(s, sequence, y, schedule);
            y'.nextIndex + Unrouted(y'.batches) == Unrouted(y.batches)
  {
    hide Standing, Pick, Picked, WrapFaithful, Step, Unrouted, Conserved;
    if |schedule| == 0 {
      CleanConserved(s, y);
    } else {
      var init, last := schedule[..|schedule| - 1], schedule[|schedule| - 1];
      RunConserves(s, sequence, y, init);
      StepConserves(s, sequence, Run(s, sequence, y, init), last);
      StepKeepsTotal(s, sequence, Run(s, sequence, y, init), last);
    }
  }

  /** Atomic steps a batch still has to take. */
  function Work(b: Batch): int {
    3 * b.remaining - (if b.phase == Idle then 0 else if b.phase.Routed? then 1 else 2)
  }

  function Turns(schedule: seq<nat>, i: nat): nat {
    CountIf(schedule, (j: nat) => j == i)
  }

  /** A turn does one step of that batch's work, if any is left, and of no other's. */
  lemma StepWorks(s: Shares, sequence: seq<nat>, y: System, i: nat, j: nat)
    requires |sequence| > 0 && WellFormed(s, y) && j < |y.batches|
    ensures var y' := Step(s, sequence, y, i);
            && |y'.batches| == |y.batches|
            && Work(y.batches[j]) >= 0
            && Work(y'.batches[j]) == if i == j && Work(y.batches[j]) > 0 then Work(y.batches[j]) - 1
                                      else Work(y.batches[j])
  {
  }

  /** Every batch gets on with each of its turns, three of them a request, whatever the others
      do; so all are done exactly when each has had its turns. */
  lemma {:induction false} WorkIsTurns(s: Shares, sequence: seq<nat>, y: System, schedule: seq<nat>, j: nat)
    requires Configured(s, sequence) && Clean(s, y) && j < |y.batches|
    ensures var y' := Run(s, sequence, y, schedule);
            && |y'.batches| == |y.batches|
            && Work(y'.batches[j])
               == if Turns(schedule, j) < 3 * y.batches[j].remaining
                  then 3 * y.batches[j].remaining - Turns(schedule, j) else 0
  {
    hide Step, WrapFaithful, Pick, Work;
    if |schedule| == 0 {
      IdleWork(y.batches[j]);
    } else {
      var init, last := schedule[..|schedule| - 1], schedule[|schedule| - 1];
      WorkIsTurns(s, sequence, y, init, j);
      StepWorks(s, sequence, Run(s, sequence, y, init), last, j);
    }
  }

  lemma IdleWork(b: Batch)
    requires b.phase == Idle
    ensures Work(b) == 3 * b.remaining
  {
  }

  lemma DoneIff(s: Shares, b: Batch)
    requires WellFormedBatch(s, b)
    ensures b == Batch(0, Idle) <==> Work(b) == 0
  {
  }

  lemma QuiescentIff(s: Shares, sequence: seq<nat>, y: System, schedule: seq<nat>)
    requires Configured(s, sequence) && Clean(s, y)
    ensures Quiescent(Run(s, sequence, y, schedule))
            <==> forall j: nat | j < |y.batches| :: Turns(schedule, j) >= 3 * y.batches[j].remaining
  {
    hide Run, WrapFaithful, Pick, Work, Turns, CountIf;
    var y' := Run(s, sequence, y, schedule);
    SameBatches(s, sequence, y, schedule);
    forall j: nat | j < |y.batches|
      ensures y'.batches[j] == Batch(0, Idle) <==> Turns(schedule, j) >= 3 * y.batches[j].remaining
    {
      WorkIsTurns(s, sequence, y, schedule, j);
      DoneIff(s, y'.batches[j]);
    }
  }

  lemma {:induction false} SameBatches(s: Shares, sequence: seq<nat>, y: System, schedule: seq<nat>)
    requires Configured(s, sequence) && WellFormed(s, y)
    ensures |Run(s, sequence, y, schedule).batches| == |y.batches|
  {
    hide WrapFaithful, Pick;
    if |schedule| == 0 {
    } else {
      SameBatches(s, sequence, y, schedule[..|schedule| - 1]);
    }
  }

  predicate Quiescent(y: System) {
    forall i | 0 <= i < |y.batches| :: y.batches[i] == Batch(0, Idle)
  }

  lemma {:induction false} NothingUnrouted(batches: seq<Batch>)
    requires forall i | 0 <= i < |batches| :: batches[i] == Batch(0, Idle)
    ensures Unrouted(batches) == 0
  {
    if |batches| == 0 {
    } else {
      NothingUnrouted(batches[..|batches| - 1]);
    }
  }

  /** When all batches are done, in whatever order they ran, each tier's counter and receipts
      are exactly the schedule's count over all requests. */
  lemma QuiescentCounts(s: Shares, sequence: seq<nat>, y: System, schedule: seq<nat>)
    requires Configured(s, sequence) && Clean(s, y)
    requires Quiescent(Run(s, sequence, y, schedule))
    ensures var y' := Run(s, sequence, y, schedule);
            forall t | 0 <= t < |s.weights| ::
              y'.counters[t] == y'.receipts[t] == Picked(s, Unrouted(y.batches), t)
  {
    hide CountIf, Standing, Pick, Picked, WrapFaithful, Step, Run, Unrouted;
    var y' := Run(s, sequence, y, schedule);
    RunConserves(s, sequence, y, schedule);
    NothingUnrouted(y'.batches);
    forall t | 0 <= t < |s.weights|
      ensures y'.counters[t] == y'.receipts[t] == Picked(s, Unrouted(y.batches), t)
    {
      CountZero(y'.batches, InPhase(Routed(t)));
      CountZero(y'.batches, InPhase(Stored(t)));
    }
  }

  // ---------------------------------------------------------------- one batch as a loop

  /** A row of the last batch kept for inspection. */
  datatype BatchSample = BatchSample(requestId: Id, model: string)

  /** The routing keys in Redis. */
  class RoutingKeys {
    var nextIndex: nat
    var counters: seq<nat>
    var lastBatch: seq<BatchSample>

    constructor (tiers: nat)
      ensures nextIndex == 0 && |counters| == tiers && forall t | 0 <= t < tiers :: counters[t] == 0
      ensures lastBatch == []
    {
      nextIndex := 0;
      counters := seq(tiers, _ => 0);
      lastBatch := [];
    }

    method NextSeq() returns (index: nat)
      modifies this`nextIndex
      ensures index == old(nextIndex) && nextIndex == index + 1
    {
      nextIndex := nextIndex + 1;
      index := nextIndex - 1;
    }

    method IncrCount(tier: nat)
      requires tier < |counters|
      modifies this`counters
      ensures counters == old(counters)[tier := old(counters)[tier] + 1]
    {
      counters := counters[tier := counters[tier] + 1];
    }
  }

  /** The receipts of `count` requests routed from a sequence index on. */
  function WeightedReceipts(s: Shares, models: seq<string>, from: nat, count: nat): (rs: seq<Receipt>)
    requires 0 < |s.weights| == |models|
    ensures |rs| == count
  {
    if count == 0 then []
    else WeightedReceipts(s, models, from, count - 1) + [WeightedReceipt(models[Pick(s, from + count - 1)])]
  }

  /** Receipt k names the model of the k-th slot taken, under the weighted policy. */
  lemma {:induction false} WeightedReceiptsSay(s: Shares, models: seq<string>, from: nat, count: nat, k: nat)
    requires 0 < |s.weights| == |models| && k < count
    ensures WeightedReceipts(s, models, from, count)[k]
            == Receipt(models[Pick(s, from + k)], "weighted_distribution", "weighted", None, None)
  {
    hide Pick;
    if k == count - 1 {
    } else {
      WeightedReceiptsSay(s, models, from, count - 1, k);
    }
  }

  /** A batch undisturbed by others: from wherever the counter stands it takes the next
      `count` slots of the unbounded schedule, one receipt, tally and sample each. */
  method RouteBatch(redis: RoutingKeys, db: Postgres, ghost s: Shares, sequence: seq<nat>,
                    models: seq<string>, count: nat, ids: seq<Id>)
    requires Configured(s, sequence) && |models| == |s.weights| == |redis.counters| && |ids| == count
    modifies redis, db
    ensures redis.nextIndex == old(redis.nextIndex) + count
    ensures |redis.counters| == |s.weights|
    ensures forall t | 0 <= t < |s.weights| ::
              redis.counters[t] + Picked(s, old(redis.nextIndex), t)
              == old(redis.counters)[t] + Picked(s, redis.nextIndex, t)
    ensures db.receipts == InsertAll(old(db.receipts), ids, WeightedReceipts(s, models, old(redis.nextIndex), count))
    ensures |redis.lastBatch| == count
    ensures forall i | 0 <= i < count ::
              redis.lastBatch[i] == BatchSample(ids[i], models[Pick(s, old(redis.nextIndex) + i)])
  {
    hide Standing, Pick, Picked, WrapFaithful, WeightedReceipts, InsertAll, RouteWeighted;
    var samples: seq<BatchSample> := [];
    ghost var from, counted, before := redis.nextIndex, redis.counters, db.receipts;
    BatchReceipts(s, models, from, 0, before, [], "");
    for i := 0 to count
      invariant redis.nextIndex == from + i && |redis.counters| == |s.weights|
      invariant forall t | 0 <= t < |s.weights| ::
                  redis.counters[t] + Picked(s, from, t) == counted[t] + Picked(s, from + i, t)
      invariant db.receipts == InsertAll(before, ids[..i], WeightedReceipts(s, models, from, i))
      invariant |samples| == i
      invariant forall j | 0 <= j < i :: samples[j] == BatchSample(ids[j], models[Pick(s, from + j)])
    {
      RoutedIsPick(s, sequence, redis.nextIndex);
      PickedNext(s, from + i);
      BatchReceipts(s, models, from, i, before, ids[..i], ids[i]);
      assert ids[..i + 1] == ids[..i] + [ids[i]];
      var index := redis.NextSeq();
      var tier := RouteWeighted(sequence, index).value;
      db.InsertReceipt(ids[i], WeightedReceipt(models[tier]));
      redis.IncrCount(tier);
      samples := samples + [BatchSample(ids[i], models[tier])];
    }
    assert ids[..count] == ids;
    redis.lastBatch := samples;
  }

  lemma BatchReceipts(s: Shares, models: seq<string>, from: nat, i: nat, before: Table, ids: seq<Id>, id: Id)
    requires 0 < |s.weights| == |models| && |ids| == i
    ensures InsertAll(before, ids + [id], WeightedReceipts(s, models, from, i + 1))
            == Insert(InsertAll(before, ids, WeightedReceipts(s, models, from, i)), id,
                      WeightedReceipt(models[Pick(s, from + i)]))
    ensures i == 0 ==> InsertAll(before, ids, WeightedReceipts(s, models, from, i)) == before
  {
    hide Pick;
    InsertAllSnoc(before, ids, WeightedReceipts(s, models, from, i), id, WeightedReceipt(models[Pick(s, from + i)]));
  }

  // ---------------------------------------------------------------- validation

  /** Observed equals rounded expectation for every tier. */
  predicate AllMatch(pcts: seq<nat>, counts: seq<nat>)
    requires |counts| == |pcts|
  {
    forall i | 0 <= i < |pcts| :: counts[i] == RoundHalfEven(Sum(counts) * pcts[i], 100)
  }

  datatype TierRow = TierRow(expected: int, observed: nat, matches: bool)

  /** The validation report over the tier counters. */
  method Validate(pcts: seq<nat>, counts: seq<nat>) returns (rows: seq<TierRow>, allMatch: bool)
    requires |counts| == |pcts|
    ensures |rows| == |pcts|
    ensures forall i | 0 <= i < |pcts| ::
              && rows[i].observed == counts[i]
              && IsRounding(Sum(counts) * pcts[i], 100, rows[i].expected)
              && (rows[i].matches <==> rows[i].observed == rows[i].expected)
    ensures allMatch <==> AllMatch(pcts, counts)
  {
    var total := 0;
    for i := 0 to |counts|
      invariant total == Sum(counts[..i])
    {
      assert counts[..i + 1][..i] == counts[..i];
      total := total + counts[i];
    }
    assert counts[..|counts|] == counts;
    rows, allMatch := Rows(pcts, counts, total);
  }

  method Rows(pcts: seq<nat>, counts: seq<nat>, total: int) returns (rows: seq<TierRow>, allMatch: bool)
    requires |counts| == |pcts|
    ensures |rows| == |pcts|
    ensures forall i | 0 <= i < |pcts| ::
              && rows[i].observed == counts[i]
              && IsRounding(total * pcts[i], 100, rows[i].expected)
              && (rows[i].matches <==> rows[i].observed == rows[i].expected)
    ensures allMatch <==> forall i | 0 <= i < |pcts| :: counts[i] == RoundHalfEven(total * pcts[i], 100)
  {
    hide RoundHalfEven, IsRounding;
    rows, allMatch := [], true;
    for i := 0 to |pcts|
      invariant |rows| == i
      invariant forall j | 0 <= j < i ::
                  && rows[j].observed == counts[j]
                  && IsRounding(total * pcts[j], 100, rows[j].expected)
                  && (rows[j].matches <==> rows[j].observed == rows[j].expected)
      invariant allMatch <==> forall j | 0 <= j < i :: counts[j] == RoundHalfEven(total * pcts[j], 100)
    {
      var expected := RoundHalfEven(total * pcts[i], 100);
      RoundCharacterised(total * pcts[i], 100, expected);
      rows := rows + [TierRow(expected, counts[i], counts[i] == expected)];
      allMatch := allMatch && counts[i] == expected;
    }
  }

  /** The schedule's count for every tier, as a table. */
  predicate ScheduleCounts(s: Shares, n: nat, counts: seq<nat>)
    requires |s.weights| > 0
  {
    |counts| == |s.weights| && forall t | 0 <= t < |counts| :: counts[t] == Picked(s, n, t)
  }

  function CountTable(s: Shares, n: nat): (counts: seq<nat>)
    requires |s.weights| > 0
    ensures |counts| == |s.weights|
  {
    if n == 0 then Zeros(|s.weights|)
    else
      var c := CountTable(s, n - 1);
      c[Pick(s, n - 1) := c[Pick(s, n - 1)] + 1]
  }

  /** Every slot goes to exactly one tier. */
  lemma {:induction false} CountTableMeaning(s: Shares, n: nat)
    requires |s.weights| > 0
    ensures ScheduleCounts(s, n, CountTable(s, n)) && Sum(CountTable(s, n)) == n
  {
    hide Standing, Pick, Sum;
    if n == 0 {
      SumZeros(CountTable(s, 0));
    } else {
      CountTableMeaning(s, n - 1);
      var c := CountTable(s, n - 1);
      SumUpdate(c, Pick(s, n - 1), c[Pick(s, n - 1)] + 1);
    }
  }

  lemma CountsAddUp(s: Shares, n: nat, counts: seq<nat>)
    requires |s.weights| > 0 && ScheduleCounts(s, n, counts)
    ensures Sum(counts) == n
  {
    hide Standing, Pick, Sum, Picked, CountTable;
    CountTableMeaning(s, n);
    assert counts == CountTable(s, n);
  }

  /** At most half a pick off the share, and on a tie with an even count. */
  predicate NearShare(standing: int, count: nat) {
    -50 <= standing <= 50 && (standing == 50 || standing == -50 ==> count % 2 == 0)
  }

  lemma TierMatchesIff(n: nat, pct: nat, standing: int, count: nat)
    requires standing == pct * n - 100 * count
    ensures count == RoundHalfEven(n * pct, 100) <==> NearShare(standing, count)
  {
    hide RoundHalfEven;
    RoundCharacterised(n * pct, 100, count);
    assert n * pct == pct * n;
  }

  /** The validation accepts the schedule's own counts, for any percentages, exactly when
      every tier's standing is within half a pick, a tie counting only for an even count. */
  lemma MatchIff(pcts: seq<nat>, n: nat, counts: seq<nat>)
    requires |pcts| > 0 && ScheduleCounts(PercentShares(pcts), n, counts)
    ensures AllMatch(pcts, counts)
            <==> forall i | 0 <= i < |pcts| :: NearShare(Standing(PercentShares(pcts), n)[i], counts[i])
  {
    hide Standing, Pick, Picked, Sum, RoundHalfEven, NearShare;
    CountsAddUp(PercentShares(pcts), n, counts);
    forall i | 0 <= i < |pcts|
      ensures counts[i] == RoundHalfEven(n * pcts[i], 100)
              <==> NearShare(Standing(PercentShares(pcts), n)[i], counts[i])
    {
      StandingIsDeficit(PercentShares(pcts), n, i);
      TierMatchesIff(n, pcts[i], Standing(PercentShares(pcts), n)[i], counts[i]);
    }
  }

  /** So whole entitlements validate: whenever 100 divides total * pct for every tier, the
      observed counts are the expected ones. */
  lemma WholeTotalsMatch(pcts: seq<nat>, n: nat, counts: seq<nat>)
    requires Sum(pcts) == 100 && |pcts| > 0
    requires ScheduleCounts(PercentShares(pcts), n, counts)
    requires WholeEntitlements(PercentShares(pcts), n)
    ensures AllMatch(pcts, counts)
  {
    hide Standing, Pick, Picked, Sum, AllMatch, ScheduleCounts;
    SettledIffWhole(PercentShares(pcts), n);
    FirstStanding(PercentShares(pcts));
    MatchIff(pcts, n, counts);
  }

  /** After any interleaving of any batches from a clean counter, the validation says that all
      match exactly when the schedule is near every share at that total. */
  lemma BatchesValidateIff(pcts: seq<nat>, sequence: seq<nat>, y: System, schedule: seq<nat>)
    requires Configured(PercentShares(pcts), sequence) && Clean(PercentShares(pcts), y)
    requires Quiescent(Run(PercentShares(pcts), sequence, y, schedule))
    ensures var total, counts := Unrouted(y.batches), Run(PercentShares(pcts), sequence, y, schedule).counters;
            && ScheduleCounts(PercentShares(pcts), total, counts)
            && (AllMatch(pcts, counts)
                <==> forall i | 0 <= i < |pcts| :: NearShare(Standing(PercentShares(pcts), total)[i], counts[i]))
  {
    hide Standing, Pick, Picked, WrapFaithful, Run, Step, Unrouted, AllMatch, Quiescent, NearShare;
    QuiescentCounts(PercentShares(pcts), sequence, y, schedule);
    MatchIff(pcts, Unrouted(y.batches), Run(PercentShares(pcts), sequence, y, schedule).counters);
  }

  lemma TensAreWhole(pcts: seq<nat>, n: nat)
    requires forall i | 0 <= i < |pcts| :: pcts[i] % 10 == 0
    requires n % 10 == 0
    ensures WholeEntitlements(PercentShares(pcts), n)
  {
    forall i | 0 <= i < |pcts| ensures (pcts[i] * n) % 100 == 0 {
      var a, b := pcts[i] / 10, n / 10;
      assert pcts[i] * n == 100 * (a * b);
      DivModUnique(pcts[i] * n, 100, a * b, 0);
    }
  }

  lemma {:induction false} TensFillTenSlots(pcts: seq<nat>)
    requires forall i | 0 <= i < |pcts| :: pcts[i] % 10 == 0
    ensures SequenceLength(pcts) * 10 == Sum(pcts)
  {
    if |pcts| == 0 {
    } else {
      TensFillTenSlots(pcts[..|pcts| - 1]);
    }
  }

  /** Percentages in tens that add up to 100 configure a sequence of ten slots that may be
      wrapped: the documented case. */
  lemma TensConfigure(pcts: seq<nat>, sequence: seq<nat>)
    requires Sum(pcts) == 100 && |pcts| > 0 && IsSequence(pcts, sequence)
    requires forall i | 0 <= i < |pcts| :: pcts[i] % 10 == 0
    ensures |sequence| == 10 && Configured(PercentShares(pcts), sequence)
  {
    hide Standing, Pick, Picked, WrapFaithful, WholeEntitlements, Sum, SequenceLength;
    TensFillTenSlots(pcts);
    TensAreWhole(pcts, 10);
    WrapFaithfulIff(PercentShares(pcts), 10);
  }

  /** The documented promise: with percentages in tens (which always configure a sequence, by
      TensConfigure), batches that total a multiple of ten validate, however they interleaved. */
  lemma TensValidate(pcts: seq<nat>, sequence: seq<nat>, y: System, schedule: seq<nat>)
    requires Sum(pcts) == 100 && |pcts| > 0
    requires forall i | 0 <= i < |pcts| :: pcts[i] % 10 == 0
    requires Configured(PercentShares(pcts), sequence)
    requires Clean(PercentShares(pcts), y) && Unrouted(y.batches) % 10 == 0
    requires Quiescent(Run(PercentShares(pcts), sequence, y, schedule))
    ensures AllMatch(pcts, Run(PercentShares(pcts), sequence, y, schedule).counters)
  {
    hide Standing, Pick, Sum, RoundHalfEven, Run, Unrouted, AllMatch, Quiescent, WholeEntitlements, ScheduleCounts;
    TensAreWhole(pcts, Unrouted(y.batches));
    BatchesValidateIff(pcts, sequence, y, schedule);
    WholeTotalsMatch(pcts, Unrouted(y.batches), Run(PercentShares(pcts), sequence, y, schedule).counters);
  }
}
