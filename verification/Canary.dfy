/** The canary watch window: the traffic split, the receipt trail, and the exposure measured
    from it. */
module Canary {
  import opened Arithmetic

  datatype Lane = Approved | CanaryLane

  /** A receipt of the watch window: its serial number and the lane that served it. */
  datatype LaneReceipt = LaneReceipt(serial: int, lane: Lane)

  const FIRST_SERIAL := 1001

  datatype Fault = DivisionByZero | EmptyLane

  datatype Exposure = Exposure(
    eligible: nat, approved: nat, canary: nat,
    approvedFirst: int, approvedLast: int, canaryFirst: int, canaryLast: int,
    measuredPct: int, bounded: bool)

  datatype Outcome = Measured(exposure: Exposure) | Failed(fault: Fault)

  /** Requests given to the canary: `ceil(eligible * pct / 100)`. */
  function CanaryRequests(eligible: int, pct: int): int {
    CeilDiv(eligible * pct, 100)
  }

  /** The trail of a window: contiguous lanes, approved first. */
  predicate Contiguous(trail: seq<LaneReceipt>, approved: nat) {
    && approved <= |trail|
    && forall i | 0 <= i < |trail| ::
         trail[i] == LaneReceipt(FIRST_SERIAL + i, if i < approved then Approved else CanaryLane)
  }

  /** The receipts one lane left, in order. */
  method LaneOf(trail: seq<LaneReceipt>, lane: Lane, ghost approved: nat) returns (rs: seq<LaneReceipt>)
    requires Contiguous(trail, approved)
    ensures rs == if lane == Approved then trail[..approved] else trail[approved..]
  {
    rs := [];
    for i := 0 to |trail|
      invariant rs == if lane == Approved then trail[..if i < approved then i else approved]
                      else if i < approved then [] else trail[approved..i]
    {
      if trail[i].lane == lane { rs := rs + [trail[i]]; }
    }
  }

  /** Build the window's trail and measure the canary exposure from it. Python's division by
      zero and indexing of an empty lane are the two faults. */
  method WatchWindow(eligible: int, pct: int) returns (outcome: Outcome)
    ensures outcome == Failed(DivisionByZero) <==> eligible <= 0
    ensures outcome == Failed(EmptyLane) <==> eligible > 0 && !(0 < CanaryRequests(eligible, pct) < eligible)
    ensures outcome.Measured? ==>
              var e, c := outcome.exposure, CanaryRequests(eligible, pct);
              && e.eligible == eligible && e.canary == c && e.approved == eligible - c
              && e.approvedFirst == 1001 && e.approvedLast == 1000 + e.approved
              && e.canaryFirst == e.approvedLast + 1 && e.canaryLast == 1000 + eligible
              && IsRounding(100 * c, eligible, e.measuredPct)
              && (e.bounded <==> e.measuredPct <= pct)
  {
    hide CeilDiv, RoundHalfEven, IsRounding;
    var production := eligible - CanaryRequests(eligible, pct);
    var trail: seq<LaneReceipt> := [];
    var i := 0;
    ghost var split := if production < 0 then 0 else if production > eligible then eligible else production;
    while i < eligible
      invariant eligible >= 0 ==> i <= eligible
      invariant 0 <= i == |trail|
      invariant forall j | 0 <= j < i ::
                  trail[j] == LaneReceipt(FIRST_SERIAL + j, if j < production then Approved else CanaryLane)
    {
      trail := trail + [LaneReceipt(FIRST_SERIAL + i, if i >= production then CanaryLane else Approved)];
      i := i + 1;
    }
    if eligible <= 0 {
      return Failed(DivisionByZero);
    }
    var approved := LaneOf(trail, Approved, split);
    var canary := LaneOf(trail, CanaryLane, split);
    var measured := RoundHalfEven(100 * |canary|, |trail|);
    RoundCharacterised(100 * |canary|, |trail|, measured);
    if |approved| == 0 || |canary| == 0 {
      return Failed(EmptyLane);
    }
    outcome := Measured(Exposure(|trail|, |approved|, |canary|,
                                 approved[0].serial, approved[|approved| - 1].serial,
                                 canary[0].serial, canary[|canary| - 1].serial,
                                 measured, measured <= pct));
  }

  /** How far the whole-request split overshoots the percentage, in hundredths of a request. */
  function Overshoot(eligible: int, pct: int): int {
    (-(eligible * pct)) % 100
  }

  /** The canary share exceeds the percentage by less than one request, never falls short. */
  lemma ShareWithinOneRequest(eligible: int, pct: int)
    ensures 100 * CanaryRequests(eligible, pct) == eligible * pct + Overshoot(eligible, pct)
    ensures 0 <= Overshoot(eligible, pct) < 100
  {
    OffsetForm(-(eligible * pct), 100, 0);
  }

  /** The blast-radius check on the measured exposure passes exactly when the overshoot is
      under half a percent of the window, or just half and the percentage even. */
  lemma BoundedIff(eligible: int, pct: int, measured: int)
    requires eligible > 0 && IsRounding(100 * CanaryRequests(eligible, pct), eligible, measured)
    ensures measured <= pct <==>
            2 * Overshoot(eligible, pct) < eligible
            || (2 * Overshoot(eligible, pct) == eligible && pct % 2 == 0)
  {
    hide CeilDiv, CanaryRequests, Overshoot;
    ShareWithinOneRequest(eligible, pct);
    var over := Overshoot(eligible, pct);
    MultipleGap(measured - pct, eligible);
    MultipleGap(measured - pct - 1, eligible);
    Distribute(eligible, measured - pct - 1);
    var gap := (measured - pct) * eligible;
    assert measured * eligible - 100 * CanaryRequests(eligible, pct) == gap - over by {
      assert gap == measured * eligible - pct * eligible;
      assert pct * eligible == eligible * pct;
    }
    BoundedByGap(eligible, pct, measured, over, gap);
  }

  lemma BoundedByGap(eligible: int, pct: int, measured: int, over: int, gap: int)
    requires eligible > 0 && 0 <= over
    requires measured == pct ==> gap == 0
    requires measured == pct + 1 ==> gap == eligible
    requires measured >= pct + 2 ==> gap >= 2 * eligible
    requires measured <= pct - 1 ==> gap <= -eligible
    requires -eligible <= 2 * (gap - over) <= eligible
    requires 2 * (gap - over) == eligible || 2 * (gap - over) == -eligible ==> measured % 2 == 0
    ensures measured <= pct <==> 2 * over < eligible || (2 * over == eligible && pct % 2 == 0)
  {
    if measured == pct + 1 {
      assert measured % 2 == 0 <==> pct % 2 == 1;
    }
  }

  lemma WholeSplit(eligible: int, pct: int)
    requires (eligible * pct) % 100 == 0
    ensures Overshoot(eligible, pct) == 0
  {
    var share := eligible * pct;
    DivModUnique(-share, 100, -(share / 100), 0);
  }

  /** Windows of 200 requests or more are always bounded, and a split that comes out whole
      measures exactly the percentage. */
  lemma BoundedWindows(eligible: int, pct: int, measured: int)
    requires eligible > 0 && IsRounding(100 * CanaryRequests(eligible, pct), eligible, measured)
    ensures eligible >= 200 ==> measured <= pct
    ensures (eligible * pct) % 100 == 0 ==> measured == pct
  {
    hide Overshoot;
    hide CeilDiv, CanaryRequests, IsRounding, RoundHalfEven;
    BoundedIff(eligible, pct, measured);
    ShareWithinOneRequest(eligible, pct);
    if (eligible * pct) % 100 == 0 {
      WholeSplit(eligible, pct);
      assert 100 * CanaryRequests(eligible, pct) == pct * eligible;
      RoundCharacterised(pct * eligible, eligible, measured);
      RoundExact(pct, eligible);
    }
  }

  /** The published cap, "the canary slice never exceeds the percentage", is not unconditional:
      15 eligible requests at ten percent give the canary 2, measured as 13 percent. */
  lemma SmallWindowBreaches(measured: int)
    requires IsRounding(100 * CanaryRequests(15, 10), 15, measured)
    ensures measured == 13 && !(measured <= 10)
  {
    assert CanaryRequests(15, 10) == 2;
    RoundCharacterised(200, 15, measured);
  }

  /** The configured window: 50 requests at ten percent measure exactly ten. */
  lemma ConfiguredWindow(measured: int)
    requires IsRounding(100 * CanaryRequests(50, 10), 50, measured)
    ensures CanaryRequests(50, 10) == 5 && measured == 10
  {
    BoundedWindows(50, 10, measured);
  }
}
