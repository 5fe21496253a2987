/** The circuit breaker: one step of the drill loop, folded over a sequence of provider
    conditions, and what holds of every run. */
module CircuitBreaker {
  import opened Arithmetic
  import opened Counting
  import opened Ledger

  /** The configured constants: the drill's primary, its fallback route, the consecutive
      failures that trip, the sheds before a probe, and the retry cap. */
  datatype Policy = Policy(
    primary: string, fallback: string, threshold: nat, cooldown: nat, maxAttempts: nat)

  datatype Circuit = Closed | Open | HalfOpen

  datatype Role = Primary | Fallback

  datatype Transition = Healthy | Failover | Trip | Shed | Recovered | ProbeFailed

  /** The loop's own variables. */
  datatype Breaker = Breaker(circuit: Circuit, failures: nat, probes: nat)

  /** One timeline entry; its sequence number is its position plus one. */
  datatype Record = Record(
    condition: string, before: Circuit, handling: Circuit, after: Circuit,
    transition: Transition, servedBy: string, role: Role, fallbackFrom: Option<string>,
    reason: string, attempts: nat)

  datatype Trace = Trace(breaker: Breaker, timeline: seq<Record>)

  const INITIAL := Breaker(Closed, 0, 0)

  predicate IsHealthy(condition: string) {
    condition == "healthy"
  }

  /** An open circuit that has waited out its cooldown handles the request half-open. */
  function Handling(p: Policy, b: Breaker): Circuit {
    if b.circuit == Open && b.probes >= p.cooldown then HalfOpen else b.circuit
  }

  function ByPrimary(p: Policy, b: Breaker, condition: string, b': Breaker,
                     t: Transition, reason: string): Trace {
    Trace(b', [Record(condition, b.circuit, Handling(p, b), b'.circuit, t,
                      p.primary, Primary, None, reason, 1)])
  }

  function ByFallback(p: Policy, b: Breaker, condition: string, b': Breaker,
                      t: Transition, reason: string, attempts: nat): Trace {
    Trace(b', [Record(condition, b.circuit, Handling(p, b), b'.circuit, t,
                      p.fallback, Fallback, Some(p.primary), reason, attempts)])
  }

  /** One iteration of the drill loop. */
  function Step(p: Policy, b: Breaker, condition: string): (t: Trace)
    ensures |t.timeline| == 1
  {
    match Handling(p, b)
    case Open =>
      ByFallback(p, b, condition, b.(probes := b.probes + 1), Shed, "fallback_fast", 0)
    case HalfOpen =>
      if IsHealthy(condition)
      then ByPrimary(p, b, condition, Breaker(Closed, 0, 0), Recovered, "primary_recovered")
      else ByFallback(p, b, condition, b.(circuit := Open, probes := 0), ProbeFailed, "fallback_fast", 1)
    case Closed =>
      if IsHealthy(condition)
      then ByPrimary(p, b, condition, b.(failures := 0), Healthy, "primary_ok")
      else
        var failures := b.failures + 1;
        var tripped := failures >= p.threshold;
        ByFallback(p, b, condition,
                   if tripped then Breaker(Open, failures, 0) else b.(failures := failures),
                   if tripped then Trip else Failover, "fallback_after_retry", p.maxAttempts)
  }

  function Run(p: Policy, b: Breaker, conds: seq<string>): (t: Trace)
    ensures |t.timeline| == |conds|
  {
    if |conds| == 0 then Trace(b, [])
    else
      var prev := Run(p, b, conds[..|conds| - 1]);
      var last := Step(p, prev.breaker, conds[|conds| - 1]);
      Trace(last.breaker, prev.timeline + last.timeline)
  }

  function Drill(p: Policy, conds: seq<string>): Trace {
    Run(p, INITIAL, conds)
  }

  lemma RunSnoc(p: Policy, b: Breaker, conds: seq<string>, c: string)
    ensures var prev := Run(p, b, conds);
            var last := Step(p, prev.breaker, c);
            Run(p, b, conds + [c]) == Trace(last.breaker, prev.timeline + last.timeline)
  {
    assert (conds + [c])[..|conds|] == conds;
  }

  lemma {:induction false} RunConcat(p: Policy, b: Breaker, first: seq<string>, second: seq<string>)
    ensures var a := Run(p, b, first);
            var c := Run(p, a.breaker, second);
            Run(p, b, first + second) == Trace(c.breaker, a.timeline + c.timeline)
  {
    if |second| == 0 {
      assert first + second == first;
    } else {
      var init, last := second[..|second| - 1], second[|second| - 1];
      assert first + second == (first + init) + [last];
      RunConcat(p, b, first, init);
      RunSnoc(p, b, first + init, last);
      var mid := Run(p, Run(p, b, first).breaker, init);
      assert (Run(p, b, first).timeline + mid.timeline) + Step(p, mid.breaker, last).timeline
          == Run(p, b, first).timeline + (mid.timeline + Step(p, mid.breaker, last).timeline);
    }
  }

  /** Entry i of a run is the step taken from the state its first i conditions reach. */
  lemma {:induction false} TimelineAt(p: Policy, b: Breaker, conds: seq<string>, i: nat)
    requires i < |conds|
    ensures Run(p, b, conds).timeline[i] == Step(p, Run(p, b, conds[..i]).breaker, conds[i]).timeline[0]
    ensures Run(p, b, conds).timeline[..i] == Run(p, b, conds[..i]).timeline
  {
    var n := |conds| - 1;
    if i < n {
      TimelineAt(p, b, conds[..n], i);
      assert conds[..n][..i] == conds[..i];
      assert Run(p, b, conds).timeline[..i] == Run(p, b, conds[..n]).timeline[..i];
    } else {
      assert Run(p, b, conds).timeline[..i] == Run(p, b, conds[..n]).timeline;
    }
  }

  // ---------------------------------------------------------------- reachable states

  /** Failures in a row that open the circuit. A threshold of 0 trips like 1: the counter
      is compared after it is incremented. */
  function TripAt(p: Policy): (n: nat)
    ensures n >= 1
  {
    if p.threshold == 0 then 1 else p.threshold
  }

  /** Between requests the circuit is never half-open, never closed with a full failure
      count, and never open past its cooldown. */
  predicate Settled(p: Policy, b: Breaker) {
    match b.circuit
    case Closed => b.failures < TripAt(p)
    case Open => b.probes <= p.cooldown
    case HalfOpen => false
  }

  lemma {:induction false} ReachableSettled(p: Policy, conds: seq<string>)
    ensures Settled(p, Drill(p, conds).breaker)
  {
    if |conds| == 0 {
    } else {
      ReachableSettled(p, conds[..|conds| - 1]);
    }
  }

  // ---------------------------------------------------------------- the cost of an outage

  function Attempts(tl: seq<Record>): nat {
    if |tl| == 0 then 0 else Attempts(tl[..|tl| - 1]) + tl[|tl| - 1].attempts
  }

  lemma AttemptsSnoc(tl: seq<Record>, r: Record)
    ensures Attempts(tl + [r]) == Attempts(tl) + r.attempts
  {
    assert (tl + [r])[..|tl|] == tl;
  }

  lemma {:induction false} AttemptsConcat(a: seq<Record>, c: seq<Record>)
    ensures Attempts(a + c) == Attempts(a) + Attempts(c)
  {
    if |c| == 0 {
      assert a + c == a;
    } else {
      AttemptsConcat(a, c[..|c| - 1]);
      assert (a + c)[..|a + c| - 1] == a + c[..|c| - 1];
    }
  }

  predicate AllUnhealthy(conds: seq<string>) {
    forall i | 0 <= i < |conds| :: !IsHealthy(conds[i])
  }

  predicate AllHealthy(conds: seq<string>) {
    forall i | 0 <= i < |conds| :: IsHealthy(conds[i])
  }

  /** Requests that still exhaust the retry budget before the circuit opens. */
  function RetriedBeforeOpen(p: Policy, b: Breaker, outage: nat): nat
    requires Settled(p, b)
  {
    if b.circuit == Open then 0
    else if outage < TripAt(p) - b.failures then outage else TripAt(p) - b.failures
  }

  /** Requests handled after that, counted together with the sheds already made. */
  function AfterOpen(p: Policy, b: Breaker, outage: nat): nat
    requires Settled(p, b)
  {
    if b.circuit == Open then outage + b.probes
    else if outage < TripAt(p) - b.failures then 0 else outage - (TripAt(p) - b.failures)
  }

  /** Sheds since the last probe or trip, once open. */
  function CyclePosition(p: Policy, b: Breaker, outage: nat): nat
    requires Settled(p, b)
  {
    AfterOpen(p, b, outage) % (p.cooldown + 1)
  }

  lemma UnhealthyStep(p: Policy, b: Breaker, c: string)
    requires Settled(p, b) && !IsHealthy(c)
    ensures Step(p, b, c).breaker
            == if b.circuit == Open then b.(probes := if b.probes >= p.cooldown then 0 else b.probes + 1)
               else if b.failures + 1 >= TripAt(p) then Breaker(Open, b.failures + 1, 0)
               else b.(failures := b.failures + 1)
  {
  }

  /** Where an unbroken outage leaves the circuit: still counting, or open at a known
      point of the cooldown cycle. */
  lemma {:induction false} OutageState(p: Policy, b: Breaker, outage: seq<string>)
    requires Settled(p, b) && AllUnhealthy(outage)
    ensures var b' := Run(p, b, outage).breaker;
            && Settled(p, b')
            && if b.circuit == Closed && |outage| < TripAt(p) - b.failures
               then b' == Breaker(Closed, b.failures + |outage|, b.probes)
               else b'.circuit == Open && b'.probes == CyclePosition(p, b, |outage|)
  {
    hide Step, IsHealthy, TripAt;
    var d := p.cooldown + 1;
    if |outage| == 0 {
      if b.circuit == Open { DivModUnique(b.probes, d, 0, b.probes); }
    } else {
      var n := |outage| - 1;
      OutageState(p, b, outage[..n]);
      DivModUnique(0, d, 0, 0);
      NextDivMod(AfterOpen(p, b, n), d);
      UnhealthyStep(p, Run(p, b, outage[..n]).breaker, outage[n]);
    }
  }

  /** The bill of an outage of n requests. */
  function OutageBill(p: Policy, b: Breaker, n: nat): nat
    requires Settled(p, b)
  {
    RetriedBeforeOpen(p, b, n) * p.maxAttempts + AfterOpen(p, b, n) / (p.cooldown + 1)
  }

  /** What the next request of an outage adds to the bill. */
  function NextCharge(p: Policy, b: Breaker, n: nat): nat
    requires Settled(p, b)
  {
    if b.circuit == Closed && n < TripAt(p) - b.failures then p.maxAttempts
    else if CyclePosition(p, b, n) == p.cooldown then 1
    else 0
  }

  lemma BillStep(p: Policy, b: Breaker, n: nat)
    requires Settled(p, b)
    ensures OutageBill(p, b, n + 1) == OutageBill(p, b, n) + NextCharge(p, b, n)
  {
    if b.circuit == Closed && n < TripAt(p) - b.failures {
      var r := RetriedBeforeOpen(p, b, n);
      assert RetriedBeforeOpen(p, b, n + 1) == r + 1;
      assert (r + 1) * p.maxAttempts == r * p.maxAttempts + p.maxAttempts;
      assert AfterOpen(p, b, n) == AfterOpen(p, b, n + 1) == 0;
    } else {
      assert RetriedBeforeOpen(p, b, n + 1) == RetriedBeforeOpen(p, b, n);
      assert AfterOpen(p, b, n + 1) == AfterOpen(p, b, n) + 1;
      NextDivMod(AfterOpen(p, b, n), p.cooldown + 1);
    }
  }

  /** The next request of an outage makes exactly that many attempts. */
  lemma ChargeIsAttempts(p: Policy, b: Breaker, outage: seq<string>, c: string)
    requires Settled(p, b) && AllUnhealthy(outage) && !IsHealthy(c)
    ensures Step(p, Run(p, b, outage).breaker, c).timeline[0].attempts == NextCharge(p, b, |outage|)
  {
    OutageState(p, b, outage);
    var here := Run(p, b, outage).breaker;
    UnhealthyAttempts(p, here, c);
  }

  lemma UnhealthyAttempts(p: Policy, b: Breaker, c: string)
    requires b.circuit != HalfOpen && !IsHealthy(c)
    ensures Step(p, b, c).timeline[0].attempts
            == if b.circuit == Closed then p.maxAttempts else if b.probes >= p.cooldown then 1 else 0
  {
  }

  /** Exactly what an unbroken outage costs the primary: the full retry budget until the
      circuit opens, then one probe per cooldown cycle. */
  lemma {:induction false} OutageCost(p: Policy, b: Breaker, outage: seq<string>)
    requires Settled(p, b) && AllUnhealthy(outage)
    ensures Attempts(Run(p, b, outage).timeline) == OutageBill(p, b, |outage|)
  {
    if |outage| == 0 {
      var open := AfterOpen(p, b, 0);
      DivModUnique(open, p.cooldown + 1, 0, open);
    } else {
      var n := |outage| - 1;
      OutageCost(p, b, outage[..n]);
      ChargeIsAttempts(p, b, outage[..n], outage[n]);
      BillStep(p, b, n);
      var prev := Run(p, b, outage[..n]);
      AttemptsConcat(prev.timeline, Step(p, prev.breaker, outage[n]).timeline);
      AttemptsOne(Step(p, prev.breaker, outage[n]).timeline);
    }
  }

  lemma AttemptsOne(tl: seq<Record>)
    requires |tl| == 1
    ensures Attempts(tl) == tl[0].attempts
  {
    assert tl == [] + [tl[0]];
    AttemptsSnoc([], tl[0]);
  }

  /** The same bill for an outage that starts at any point of any drill. */
  lemma OutageCostInDrill(p: Policy, before: seq<string>, outage: seq<string>)
    requires AllUnhealthy(outage)
    ensures var b := Drill(p, before).breaker;
            && Settled(p, b)
            && Attempts(Drill(p, before + outage).timeline) - Attempts(Drill(p, before).timeline)
               == OutageBill(p, b, |outage|)
  {
    var b := Drill(p, before).breaker;
    ReachableSettled(p, before);
    OutageCost(p, b, outage);
    RunConcat(p, INITIAL, before, outage);
    AttemptsConcat(Drill(p, before).timeline, Run(p, b, outage).timeline);
  }

  /** Enough failures in a row always open the circuit. */
  lemma OutageOpens(p: Policy, before: seq<string>, outage: seq<string>)
    requires AllUnhealthy(outage) && |outage| >= TripAt(p)
    ensures Drill(p, before + outage).breaker.circuit == Open
  {
    ReachableSettled(p, before);
    OutageState(p, Drill(p, before).breaker, outage);
    RunConcat(p, INITIAL, before, outage);
  }

  /** A healed provider is picked up after the sheds left in the cooldown and one probe. */
  lemma {:induction false} HealingRun(p: Policy, b: Breaker, healed: seq<string>)
    requires Settled(p, b) && AllHealthy(healed)
    ensures var t := Run(p, b, healed);
            && (b.circuit == Open && |healed| <= p.cooldown - b.probes
                ==> t.breaker == b.(probes := b.probes + |healed|))
            && (b.circuit == Closed || |healed| > p.cooldown - b.probes
                ==> t.breaker.circuit == Closed)
            && (b.circuit == Open && |healed| > p.cooldown - b.probes
                ==> t.timeline[p.cooldown - b.probes].transition == Recovered)
  {
    if |healed| == 0 {
    } else {
      HealingRun(p, b, healed[..|healed| - 1]);
      assert IsHealthy(healed[|healed| - 1]);
    }
  }

  /** One cooldown and one probe of healthy requests always close the circuit. */
  lemma HealingCloses(p: Policy, before: seq<string>, healed: seq<string>)
    requires AllHealthy(healed) && |healed| >= p.cooldown + 1
    ensures Drill(p, before + healed).breaker.circuit == Closed
  {
    ReachableSettled(p, before);
    HealingRun(p, Drill(p, before).breaker, healed);
    RunConcat(p, INITIAL, before, healed);
  }

  // ---------------------------------------------------------------- trips and recoveries

  function Is(t: Transition): Record -> bool {
    (r: Record) => r.transition == t
  }

  lemma DrillLast(p: Policy, conds: seq<string>)
    requires |conds| > 0
    ensures var init := conds[..|conds| - 1];
            var prev := Drill(p, init);
            var last := Step(p, prev.breaker, conds[|conds| - 1]);
            && Settled(p, prev.breaker)
            && Drill(p, conds) == Trace(last.breaker, prev.timeline + [last.timeline[0]])
            && last.timeline[0].condition == conds[|conds| - 1]
  {
    ReachableSettled(p, conds[..|conds| - 1]);
    var last := Step(p, Drill(p, conds[..|conds| - 1]).breaker, conds[|conds| - 1]);
    assert last.timeline == [last.timeline[0]];
  }

  function OpenBit(b: Breaker): int {
    if b.circuit == Open then 1 else 0
  }

  /** One step's transition, its change of state and its cost, against the bare cost. */
  lemma StepEffects(p: Policy, b: Breaker, c: string)
    requires Settled(p, b)
    ensures var t := Step(p, b, c);
            var r := t.timeline[0];
            && (if Is(Trip)(r) then 1 else 0) - (if Is(Recovered)(r) then 1 else 0)
               == OpenBit(t.breaker) - OpenBit(b)
            && BareCost(p, c) - r.attempts
               == (if r.transition == Shed then BareCost(p, c) else 0)
                  + (if Is(ProbeFailed)(r) then p.maxAttempts - 1 else 0)
  {
  }

  /** Trips and recoveries strictly alternate: on every prefix the trips lead by one
      exactly while the circuit is open, and never otherwise. */
  lemma {:induction false} TripsAndRecoveriesAlternate(p: Policy, conds: seq<string>)
    ensures var t := Drill(p, conds);
            CountIf(t.timeline, Is(Trip)) - CountIf(t.timeline, Is(Recovered))
            == OpenBit(t.breaker)
  {
    if |conds| == 0 {
    } else {
      var init := conds[..|conds| - 1];
      TripsAndRecoveriesAlternate(p, init);
      DrillLast(p, conds);
      var prev := Drill(p, init);
      StepEffects(p, prev.breaker, conds[|conds| - 1]);
      var r := Step(p, prev.breaker, conds[|conds| - 1]).timeline[0];
      CountSnoc(prev.timeline, r, Is(Trip));
      CountSnoc(prev.timeline, r, Is(Recovered));
    }
  }

  /** An unhealthy request handled while closed. */
  predicate ClosedFailure(r: Record) {
    r.handling == Closed && !IsHealthy(r.condition)
  }

  /** How many closed failures a timeline ends with. */
  function Streak(tl: seq<Record>): nat {
    if |tl| == 0 || !ClosedFailure(tl[|tl| - 1]) then 0 else 1 + Streak(tl[..|tl| - 1])
  }

  predicate EndsWithFailures(tl: seq<Record>, k: nat) {
    k <= |tl| && forall j | |tl| - k <= j < |tl| :: ClosedFailure(tl[j])
  }

  lemma {:induction false} StreakMeaning(tl: seq<Record>, k: nat)
    ensures Streak(tl) >= k <==> EndsWithFailures(tl, k)
  {
    if k == 0 || |tl| == 0 {
    } else {
      var init := tl[..|tl| - 1];
      StreakMeaning(init, k - 1);
      assert tl == init + [tl[|tl| - 1]];
      assert EndsWithFailures(tl, k) <==> ClosedFailure(tl[|tl| - 1]) && EndsWithFailures(init, k - 1) by {
        assert forall j | 0 <= j < |init| :: init[j] == tl[j];
      }
    }
  }

  lemma StreakSnoc(tl: seq<Record>, r: Record)
    ensures Streak(tl + [r]) == if ClosedFailure(r) then 1 + Streak(tl) else 0
  {
    assert (tl + [r])[..|tl|] == tl;
  }

  /** What one step does to the failure counter, and when it trips. */
  lemma StepCounts(p: Policy, b: Breaker, c: string)
    requires Settled(p, b)
    ensures var t := Step(p, b, c);
            var r := t.timeline[0];
            && (r.transition == Trip <==> ClosedFailure(r) && b.failures + 1 >= TripAt(p))
            && (ClosedFailure(r) ==> b.circuit == Closed)
            && (t.breaker.circuit == Closed
                ==> t.breaker.failures == if ClosedFailure(r) then b.failures + 1 else 0)
  {
  }

  /** While closed, the failure counter is the length of the current streak. */
  lemma {:induction false} CounterIsStreak(p: Policy, conds: seq<string>)
    ensures var t := Drill(p, conds);
            t.breaker.circuit == Closed ==> t.breaker.failures == Streak(t.timeline)
  {
    hide Step, Streak, ClosedFailure, Settled;
    if |conds| == 0 {
      NoStreak();
    } else {
      var init, last := conds[..|conds| - 1], conds[|conds| - 1];
      CounterIsStreak(p, init);
      DrillLast(p, conds);
      StepCounts(p, Drill(p, init).breaker, last);
      StreakSnoc(Drill(p, init).timeline, Step(p, Drill(p, init).breaker, last).timeline[0]);
    }
  }

  lemma NoStreak()
    ensures Streak([]) == 0
  {
  }

  /** No spurious and no missed trips: a request trips the circuit exactly when the
      configured number of requests ending at it were all unhealthy and all handled closed. */
  lemma TripIffFailureStreak(p: Policy, conds: seq<string>, i: nat)
    requires i < |conds|
    ensures var tl := Drill(p, conds).timeline;
            tl[i].transition == Trip <==> EndsWithFailures(tl[..i + 1], TripAt(p))
  {
    hide Run, Step, Streak, ClosedFailure, Settled, EndsWithFailures, TripAt;
    var tl := Drill(p, conds).timeline;
    var before := Drill(p, conds[..i]);
    TimelineAt(p, INITIAL, conds, i);
    ReachableSettled(p, conds[..i]);
    CounterIsStreak(p, conds[..i]);
    StepCounts(p, before.breaker, conds[i]);
    assert tl[..i + 1] == before.timeline + [tl[i]];
    StreakSnoc(before.timeline, tl[i]);
    StreakMeaning(tl[..i + 1], TripAt(p));
    NeedsOne(p);
  }

  lemma NeedsOne(p: Policy)
    ensures TripAt(p) >= 1
  {
  }

  // ---------------------------------------------------------------- what a timeline entry says

  /** How many sheds a timeline ends with. */
  function ShedStreak(tl: seq<Record>): nat {
    if |tl| == 0 || tl[|tl| - 1].transition != Shed then 0 else 1 + ShedStreak(tl[..|tl| - 1])
  }

  lemma ShedStreakSnoc(tl: seq<Record>, r: Record)
    ensures ShedStreak(tl + [r]) == if r.transition == Shed then 1 + ShedStreak(tl) else 0
  {
    assert (tl + [r])[..|tl|] == tl;
  }

  /** What one step does while, or by, keeping the circuit open. */
  lemma StepOpens(p: Policy, b: Breaker, c: string)
    requires Settled(p, b) && (b.circuit == Open ==> b.failures == TripAt(p))
    ensures var t := Step(p, b, c);
            t.breaker.circuit == Open ==>
              && t.breaker.failures == TripAt(p)
              && t.breaker.probes == if t.timeline[0].transition == Shed then 1 + b.probes else 0
    ensures Step(p, b, c).timeline[0].transition == Shed ==> b.circuit == Open
  {
  }

  /** While open, the failure counter stands where it tripped, and the probe counter is the
      number of requests shed since. */
  lemma {:induction false} OpenCounters(p: Policy, conds: seq<string>)
    ensures var t := Drill(p, conds);
            t.breaker.circuit == Open ==>
              t.breaker.failures == TripAt(p) && t.breaker.probes == ShedStreak(t.timeline)
  {
    hide Step, ShedStreak, Settled, TripAt;
    if |conds| == 0 {
    } else {
      var init, last := conds[..|conds| - 1], conds[|conds| - 1];
      OpenCounters(p, init);
      DrillLast(p, conds);
      StepOpens(p, Drill(p, init).breaker, last);
      ShedStreakSnoc(Drill(p, init).timeline, Step(p, Drill(p, init).breaker, last).timeline[0]);
    }
  }

  /** Every entry says where the circuit stood before its request and after it, so consecutive
      entries join up; and the request is handled half-open exactly when it finds the circuit
      open with the cooldown's sheds behind it. */
  lemma TimelineTracksCircuit(p: Policy, conds: seq<string>, i: nat)
    requires i < |conds|
    ensures var tl := Drill(p, conds).timeline;
            && tl[i].before == Drill(p, conds[..i]).breaker.circuit
            && tl[i].after == Drill(p, conds[..i + 1]).breaker.circuit
            && (i == 0 ==> tl[i].before == Closed)
            && (i + 1 < |conds| ==> tl[i].after == tl[i + 1].before)
            && (tl[i].handling == HalfOpen
                <==> tl[i].before == Open && ShedStreak(tl[..i]) >= p.cooldown)
            && (tl[i].handling != HalfOpen ==> tl[i].handling == tl[i].before)
  {
    hide Run, Settled, TripAt, ShedStreak;
    EntryJoins(p, conds, i);
    if i + 1 < |conds| { EntryJoins(p, conds, i + 1); }
    OpenCounters(p, conds[..i]);
    ReachableSettled(p, conds[..i]);
    if i == 0 { NoConditions(p, conds[..i]); }
    StepHandling(p, Drill(p, conds[..i]).breaker, conds[i]);
  }

  lemma NoConditions(p: Policy, conds: seq<string>)
    requires |conds| == 0
    ensures Drill(p, conds).breaker == INITIAL
  {
  }

  lemma StepHandling(p: Policy, b: Breaker, c: string)
    requires Settled(p, b)
    ensures var r := Step(p, b, c).timeline[0];
            && (r.handling == HalfOpen <==> b.circuit == Open && b.probes >= p.cooldown)
            && (r.handling != HalfOpen ==> r.handling == b.circuit)
  {
  }

  lemma StepEndpoints(p: Policy, b: Breaker, c: string)
    ensures var t := Step(p, b, c);
            t.timeline[0].before == b.circuit && t.timeline[0].after == t.breaker.circuit
  {
  }

  lemma EntryJoins(p: Policy, conds: seq<string>, i: nat)
    requires i < |conds|
    ensures var tl, b := Drill(p, conds).timeline, Drill(p, conds[..i]).breaker;
            && tl[i] == Step(p, b, conds[i]).timeline[0]
            && tl[..i] == Drill(p, conds[..i]).timeline
            && tl[i].before == b.circuit
            && tl[i].after == Drill(p, conds[..i + 1]).breaker.circuit
  {
    hide Step, Run;
    TimelineAt(p, INITIAL, conds, i);
    RunSnoc(p, INITIAL, conds[..i], conds[i]);
    assert conds[..i + 1] == conds[..i] + [conds[i]];
    StepEndpoints(p, Drill(p, conds[..i]).breaker, conds[i]);
  }

  /** What an entry names: how the request was handled and whether the provider was healthy
      decide what happened, the reason given for the route and the attempts made. */
  predicate Explained(p: Policy, r: Record) {
    match r.transition
    case Shed => r.handling == Open == r.after && r.reason == "fallback_fast" && r.attempts == 0
    case Recovered =>
      r.handling == HalfOpen && r.condition == "healthy" && r.after == Closed
      && r.reason == "primary_recovered" && r.attempts == 1
    case ProbeFailed =>
      r.handling == HalfOpen && r.condition != "healthy" && r.after == Open
      && r.reason == "fallback_fast" && r.attempts == 1
    case Healthy =>
      r.handling == Closed && r.condition == "healthy" && r.after == Closed
      && r.reason == "primary_ok" && r.attempts == 1
    case Failover =>
      r.handling == Closed && r.condition != "healthy" && r.after == Closed
      && r.reason == "fallback_after_retry" && r.attempts == p.maxAttempts
    case Trip =>
      r.handling == Closed && r.condition != "healthy" && r.after == Open
      && r.reason == "fallback_after_retry" && r.attempts == p.maxAttempts
  }

  lemma StepExplained(p: Policy, b: Breaker, c: string)
    ensures Explained(p, Step(p, b, c).timeline[0]) || b.circuit == HalfOpen
    ensures Step(p, b, c).timeline[0].condition == c
  {
  }

  lemma EntriesExplained(p: Policy, conds: seq<string>, i: nat)
    requires i < |conds|
    ensures var r := Drill(p, conds).timeline[i];
            r.condition == conds[i] && Explained(p, r)
  {
    hide Step, Run, Explained;
    TimelineAt(p, INITIAL, conds, i);
    ReachableSettled(p, conds[..i]);
    StepExplained(p, Drill(p, conds[..i]).breaker, conds[i]);
  }

  // ---------------------------------------------------------------- attempt accounting

  /** What a request would cost with no breaker in front of the provider. */
  function BareCost(p: Policy, condition: string): nat {
    if IsHealthy(condition) then 1 else p.maxAttempts
  }

  function AttemptsWithoutBreaker(p: Policy, conds: seq<string>): nat {
    if |conds| == 0 then 0
    else AttemptsWithoutBreaker(p, conds[..|conds| - 1]) + BareCost(p, conds[|conds| - 1])
  }

  /** The bare cost of the requests that were shed. */
  function ShedCost(p: Policy, tl: seq<Record>): nat {
    if |tl| == 0 then 0
    else ShedCost(p, tl[..|tl| - 1])
         + if tl[|tl| - 1].transition == Shed then BareCost(p, tl[|tl| - 1].condition) else 0
  }

  /** The attempts every failed probe spares: all but the one it makes. */
  function ProbeSavings(p: Policy, tl: seq<Record>): int {
    if |tl| == 0 then 0
    else ProbeSavings(p, tl[..|tl| - 1])
         + if Is(ProbeFailed)(tl[|tl| - 1]) then p.maxAttempts - 1 else 0
  }

  lemma {:induction false} ProbeSavingsClosed(p: Policy, tl: seq<Record>)
    ensures ProbeSavings(p, tl) == (p.maxAttempts - 1) * CountIf(tl, Is(ProbeFailed))
  {
    if |tl| == 0 {
    } else {
      ProbeSavingsClosed(p, tl[..|tl| - 1]);
      var k := CountIf(tl[..|tl| - 1], Is(ProbeFailed));
      assert (p.maxAttempts - 1) * (k + 1) == (p.maxAttempts - 1) * k + (p.maxAttempts - 1);
    }
  }

  lemma {:induction false} SavingsByRecord(p: Policy, conds: seq<string>)
    ensures var tl := Drill(p, conds).timeline;
            AttemptsWithoutBreaker(p, conds) - Attempts(tl) == ShedCost(p, tl) + ProbeSavings(p, tl)
  {
    if |conds| == 0 {
    } else {
      var init := conds[..|conds| - 1];
      SavingsByRecord(p, init);
      DrillLast(p, conds);
      var prev := Drill(p, init);
      var c := conds[|conds| - 1];
      StepEffects(p, prev.breaker, c);
      var r := Step(p, prev.breaker, c).timeline[0];
      AttemptsSnoc(prev.timeline, r);
      assert (prev.timeline + [r])[..|prev.timeline|] == prev.timeline;
    }
  }

  /** What the breaker saves, to the attempt: everything it sheds, and all but one attempt
      of every failed probe. */
  lemma SavingsAccounted(p: Policy, conds: seq<string>)
    ensures var tl := Drill(p, conds).timeline;
            AttemptsWithoutBreaker(p, conds) - Attempts(tl)
            == ShedCost(p, tl) + (p.maxAttempts - 1) * CountIf(tl, Is(ProbeFailed))
  {
    SavingsByRecord(p, conds);
    ProbeSavingsClosed(p, Drill(p, conds).timeline);
  }

  function RetryBudgetCeiling(p: Policy, conds: seq<string>): nat {
    p.maxAttempts * |conds|
  }

  lemma {:induction false} CeilingBounds(p: Policy, conds: seq<string>)
    requires p.maxAttempts >= 1
    ensures AttemptsWithoutBreaker(p, conds) <= RetryBudgetCeiling(p, conds)
  {
    if |conds| == 0 {
    } else {
      CeilingBounds(p, conds[..|conds| - 1]);
      assert p.maxAttempts * |conds| == p.maxAttempts * (|conds| - 1) + p.maxAttempts;
    }
  }

  predicate StormAvoided(p: Policy, conds: seq<string>) {
    Attempts(Drill(p, conds).timeline) <= AttemptsWithoutBreaker(p, conds) <= RetryBudgetCeiling(p, conds)
  }

  /** The published inequality attempts <= counterfactual <= ceiling holds of every drill
      exactly when at least one attempt is configured; with a cap of 0 one failed probe breaks it. */
  lemma StormAvoidedIff(p: Policy)
    ensures (forall conds :: StormAvoided(p, conds)) <==> p.maxAttempts >= 1
  {
    hide Drill, Attempts, AttemptsWithoutBreaker, RetryBudgetCeiling;
    if p.maxAttempts >= 1 {
      forall conds ensures StormAvoided(p, conds) { CapAvoidsStorm(p, conds); }
    } else {
      var conds := seq(TripAt(p) + p.cooldown + 1, _ => "error");
      ProbeBreaksZeroCap(p, conds);
      assert !StormAvoided(p, conds);
    }
  }

  lemma CapAvoidsStorm(p: Policy, conds: seq<string>)
    requires p.maxAttempts >= 1
    ensures StormAvoided(p, conds)
  {
    hide Drill, Attempts, AttemptsWithoutBreaker, RetryBudgetCeiling, CountIf;
    SavingsAccounted(p, conds);
    CeilingBounds(p, conds);
    assert (p.maxAttempts - 1) * CountIf(Drill(p, conds).timeline, Is(ProbeFailed)) >= 0;
  }

  lemma ProbeBreaksZeroCap(p: Policy, conds: seq<string>)
    requires p.maxAttempts == 0 && AllUnhealthy(conds) && |conds| == TripAt(p) + p.cooldown + 1
    ensures AttemptsWithoutBreaker(p, conds) == 0 && Attempts(Drill(p, conds).timeline) == 1
  {
    NothingWithoutAttempts(p, conds);
    OutageCost(p, INITIAL, conds);
    assert AfterOpen(p, INITIAL, |conds|) == p.cooldown + 1;
    DivModUnique(p.cooldown + 1, p.cooldown + 1, 1, 0);
  }

  lemma {:induction false} NothingWithoutAttempts(p: Policy, conds: seq<string>)
    requires p.maxAttempts == 0 && AllUnhealthy(conds)
    ensures AttemptsWithoutBreaker(p, conds) == 0
  {
    if |conds| == 0 {
    } else {
      NothingWithoutAttempts(p, conds[..|conds| - 1]);
    }
  }

  // ---------------------------------------------------------------- who served

  predicate ServedByPrimary(r: Record) { r.role == Primary }

  predicate ServedByFallback(r: Record) { r.role == Fallback }

  /** The primary answers only requests for which it is healthy, on a single attempt; every
      other request is answered by the fallback and says so. */
  lemma PrimaryServedIsHealthy(p: Policy, conds: seq<string>, i: nat)
    requires i < |conds|
    ensures var r := Drill(p, conds).timeline[i];
            && r.condition == conds[i]
            && (r.role == Primary ==> conds[i] == "healthy" && r.servedBy == p.primary && r.attempts == 1)
            && (r.role == Primary <==> r.fallbackFrom == None)
            && (r.role == Fallback ==> r.servedBy == p.fallback && r.fallbackFrom == Some(p.primary))
            && (r.handling == Open ==> r.attempts == 0)
  {
    TimelineAt(p, INITIAL, conds, i);
  }

  lemma {:induction false} RolesPartition(tl: seq<Record>)
    ensures CountIf(tl, ServedByPrimary) + CountIf(tl, ServedByFallback) == |tl|
  {
    if |tl| == 0 {
    } else {
      RolesPartition(tl[..|tl| - 1]);
    }
  }

  // ---------------------------------------------------------------- the configured drill

  const PINNED := Policy("balanced-std", "econo-mini", 3, 1, 3)

  const PINNED_OUTAGE := ["slow", "error", "quota", "error", "quota", "slow"]

  /** The configured drill: six failures in three modes, then two healthy requests. It spends
      12 primary attempts where 20 would have been spent unprotected, under a ceiling of 24,
      and ends recovered. */
  lemma PinnedDrill()
    ensures var conds := PINNED_OUTAGE + ["healthy", "healthy"];
            var t := Drill(PINNED, conds);
            && Attempts(t.timeline) == 12
            && AttemptsWithoutBreaker(PINNED, conds) == 20
            && RetryBudgetCeiling(PINNED, conds) == 24
            && t.breaker.circuit == Closed
            && t.timeline[6].transition == Recovered
            && t.timeline[0].servedBy == "econo-mini" && t.timeline[6].servedBy == "balanced-std"
  {
    hide Run, Attempts, AttemptsWithoutBreaker;
    PinnedServers();
    OutageCost(PINNED, INITIAL, PINNED_OUTAGE);
    OutageState(PINNED, INITIAL, PINNED_OUTAGE);
    BareOutage(PINNED, PINNED_OUTAGE);
    DrillAppend(PINNED, PINNED_OUTAGE, "healthy");
    DrillAppend(PINNED, PINNED_OUTAGE + ["healthy"], "healthy");
    assert PINNED_OUTAGE + ["healthy", "healthy"] == (PINNED_OUTAGE + ["healthy"]) + ["healthy"];
  }

  lemma PinnedServers()
    ensures var tl := Drill(PINNED, PINNED_OUTAGE + ["healthy", "healthy"]).timeline;
            tl[0].servedBy == "econo-mini" && (tl[6].role == Primary ==> tl[6].servedBy == "balanced-std")
  {
    hide Run, Step;
    PrimaryServedIsHealthy(PINNED, PINNED_OUTAGE + ["healthy", "healthy"], 0);
    PrimaryServedIsHealthy(PINNED, PINNED_OUTAGE + ["healthy", "healthy"], 6);
  }

  lemma DrillAppend(p: Policy, conds: seq<string>, c: string)
    ensures var t, t' := Drill(p, conds), Drill(p, conds + [c]);
            var s := Step(p, t.breaker, c);
            && t' == Trace(s.breaker, t.timeline + [s.timeline[0]])
            && Attempts(t'.timeline) == Attempts(t.timeline) + s.timeline[0].attempts
            && AttemptsWithoutBreaker(p, conds + [c]) == AttemptsWithoutBreaker(p, conds) + BareCost(p, c)
  {
    RunSnoc(p, INITIAL, conds, c);
    var t := Drill(p, conds);
    var s := Step(p, t.breaker, c).timeline;
    assert s == [s[0]];
    AttemptsSnoc(t.timeline, s[0]);
    assert (conds + [c])[..|conds|] == conds;
  }

  lemma {:induction false} BareOutage(p: Policy, conds: seq<string>)
    requires AllUnhealthy(conds)
    ensures AttemptsWithoutBreaker(p, conds) == p.maxAttempts * |conds|
  {
    if |conds| == 0 {
    } else {
      BareOutage(p, conds[..|conds| - 1]);
      assert p.maxAttempts * |conds| == p.maxAttempts * (|conds| - 1) + p.maxAttempts;
    }
  }
}
