/** The drill itself: the loop over the breaker, its Redis evidence, its receipts, and the
    reconciliation of the three ledgers it leaves behind. */
module CircuitDrill {
  import opened Counting
  import opened Ledger
  import opened CircuitBreaker

  const CIRCUIT_POLICY := "circuit_breaker"

  datatype RetryOutcome = PrimaryServed | FailedOver

  datatype RetryEntry = RetryEntry(
    condition: string, attempts: nat, retried: bool, outcome: RetryOutcome, after: Circuit)

  datatype Summary = Summary(
    total: nat, primaryServed: nat, fallbackServed: nat, tripped: bool, recovered: bool,
    finalState: Circuit, totalPrimaryAttempts: nat, retryBudgetCeiling: nat,
    attemptsWithoutBreaker: nat)

  function ReceiptOf(r: Record): Receipt {
    Receipt(r.servedBy, r.reason, CIRCUIT_POLICY, None, r.fallbackFrom)
  }

  function ReceiptsOf(tl: seq<Record>): (rs: seq<Receipt>)
    ensures |rs| == |tl|
  {
    if |tl| == 0 then [] else ReceiptsOf(tl[..|tl| - 1]) + [ReceiptOf(tl[|tl| - 1])]
  }

  function RetryOf(r: Record): RetryEntry {
    RetryEntry(r.condition, r.attempts, r.attempts > 1,
               if r.role == Primary then PrimaryServed else FailedOver, r.after)
  }

  function RetryLogOf(tl: seq<Record>): (log: seq<RetryEntry>)
    ensures |log| == |tl|
  {
    if |tl| == 0 then [] else RetryLogOf(tl[..|tl| - 1]) + [RetryOf(tl[|tl| - 1])]
  }

  /** The summary numbers, each read off the timeline it must agree with. */
  predicate Summarises(s: Summary, p: Policy, conds: seq<string>) {
    var t := Drill(p, conds);
    && s.total == |conds|
    && s.primaryServed == CountIf(t.timeline, ServedByPrimary)
    && s.fallbackServed == CountIf(t.timeline, ServedByFallback)
    && (s.tripped <==> CountIf(t.timeline, Is(Trip)) > 0)
    && (s.recovered <==> CountIf(t.timeline, Is(Recovered)) > 0)
    && s.finalState == t.breaker.circuit
    && s.totalPrimaryAttempts == Attempts(t.timeline)
    && s.retryBudgetCeiling == RetryBudgetCeiling(p, conds)
    && s.attemptsWithoutBreaker == AttemptsWithoutBreaker(p, conds)
  }

  /** What the loop's counters and logs must say about a timeline. */
  predicate Evidence(tl: seq<Record>, retrylog: seq<RetryEntry>, primaryServed: nat, fallbackServed: nat,
                     attempts: nat, tripped: bool, recovered: bool) {
    && retrylog == RetryLogOf(tl)
    && primaryServed == CountIf(tl, ServedByPrimary)
    && fallbackServed == CountIf(tl, ServedByFallback)
    && attempts == Attempts(tl)
    && (tripped <==> CountIf(tl, Is(Trip)) > 0)
    && (recovered <==> CountIf(tl, Is(Recovered)) > 0)
  }

  /** One more record moves every counter by that record's own contribution. */
  lemma EvidenceStep(tl: seq<Record>, retrylog: seq<RetryEntry>, primaryServed: nat, fallbackServed: nat,
                     attempts: nat, tripped: bool, recovered: bool)
    requires Evidence(tl, retrylog, primaryServed, fallbackServed, attempts, tripped, recovered)
    ensures forall r: Record ::
              Evidence(tl + [r], retrylog + [RetryOf(r)],
                       primaryServed + (if r.role == Primary then 1 else 0),
                       fallbackServed + (if r.role == Fallback then 1 else 0),
                       attempts + r.attempts, tripped || r.transition == Trip,
                       recovered || r.transition == Recovered)
  {
    forall r: Record
      ensures Evidence(tl + [r], retrylog + [RetryOf(r)],
                       primaryServed + (if r.role == Primary then 1 else 0),
                       fallbackServed + (if r.role == Fallback then 1 else 0),
                       attempts + r.attempts, tripped || r.transition == Trip,
                       recovered || r.transition == Recovered)
    {
      CountSnoc(tl, r, ServedByPrimary);
      CountSnoc(tl, r, ServedByFallback);
      CountSnoc(tl, r, Is(Trip));
      CountSnoc(tl, r, Is(Recovered));
      AttemptsSnoc(tl, r);
      assert (tl + [r])[..|tl|] == tl;
    }
  }

  /** A receipt names the model that served, the reason, and whom it stood in for. */
  lemma {:induction false} ReceiptsSay(tl: seq<Record>, i: nat)
    requires i < |tl|
    ensures var r := ReceiptsOf(tl)[i];
            && r.selectedModel == tl[i].servedBy && r.routeReason == tl[i].reason
            && r.fallbackFrom == tl[i].fallbackFrom
            && r.policyName == "circuit_breaker" && r.disposition == None
  {
    if i == |tl| - 1 {
    } else {
      ReceiptsSay(tl[..|tl| - 1], i);
    }
  }

  /** A retry entry repeats its record's condition, attempts and final state, is marked retried
      beyond one attempt, and says which role answered. */
  lemma {:induction false} RetryLogSays(tl: seq<Record>, i: nat)
    requires i < |tl|
    ensures var e := RetryLogOf(tl)[i];
            && e.condition == tl[i].condition && e.attempts == tl[i].attempts && e.after == tl[i].after
            && (e.retried <==> tl[i].attempts > 1)
            && (e.outcome == PrimaryServed <==> tl[i].role == Primary)
  {
    if i == |tl| - 1 {
    } else {
      RetryLogSays(tl[..|tl| - 1], i);
    }
  }

  lemma ReceiptsSnoc(tl: seq<Record>, r: Record)
    ensures ReceiptsOf(tl + [r]) == ReceiptsOf(tl) + [ReceiptOf(r)]
  {
    assert (tl + [r])[..|tl|] == tl;
  }

  /** What the drill stores of the breaker; the probe count is not kept. */
  datatype LiveState = LiveState(circuit: Circuit, failures: nat, threshold: nat)

  /** The circuit keys in Redis. */
  class CircuitKeys {
    var finalCircuit: Option<LiveState>
    var timeline: seq<Record>
    var retrylog: seq<RetryEntry>
    var summary: Option<Summary>
    var primaryCount: nat
    var fallbackCount: nat

    constructor ()
      ensures finalCircuit == None && timeline == [] && retrylog == [] && summary == None
      ensures primaryCount == 0 && fallbackCount == 0
    {
      finalCircuit, timeline, retrylog, summary := None, [], [], None;
      primaryCount, fallbackCount := 0, 0;
    }

    method ResetCircuit()
      modifies this
      ensures finalCircuit == None && timeline == [] && retrylog == [] && summary == None
      ensures primaryCount == 0 && fallbackCount == 0
    {
      finalCircuit, timeline, retrylog, summary := None, [], [], None;
      primaryCount, fallbackCount := 0, 0;
    }

    method CircuitIncr(role: Role)
      modifies this`primaryCount, this`fallbackCount
      ensures primaryCount == old(primaryCount) + (if role == Primary then 1 else 0)
      ensures fallbackCount == old(fallbackCount) + (if role == Fallback then 1 else 0)
    {
      match role
      case Primary => primaryCount := primaryCount + 1;
      case Fallback => fallbackCount := fallbackCount + 1;
    }
  }

  /** The variables the drill loop carries from one request to the next. */
  class DrillLoop {
    var state: Circuit
    var consecutiveFailures: nat
    var probesSinceOpen: nat
    var timeline: seq<Record>
    var retrylog: seq<RetryEntry>
    var fallbackServed: nat
    var primaryServed: nat
    var totalPrimaryAttempts: nat
    var tripped: bool
    var recovered: bool

    constructor (p: Policy)
      ensures Tracks(p, [])
      ensures timeline == [] && primaryServed == 0 && fallbackServed == 0
    {
      state, consecutiveFailures, probesSinceOpen := Closed, 0, 0;
      timeline, retrylog := [], [];
      fallbackServed, primaryServed, totalPrimaryAttempts := 0, 0, 0;
      tripped, recovered := false, false;
    }

    function Now(): Breaker
      reads this
    {
      Breaker(state, consecutiveFailures, probesSinceOpen)
    }

    /** The loop is where the specification says, with evidence that agrees with its timeline. */
    ghost predicate Tracks(p: Policy, conds: seq<string>)
      reads this
    {
      && Drill(p, conds) == Trace(Now(), timeline)
      && Evidence(timeline, retrylog, primaryServed, fallbackServed, totalPrimaryAttempts, tripped, recovered)
    }

    /** Serve one request: the branches of the drill loop. */
    method Serve(p: Policy, condition: string) returns (record: Record)
      modifies this`state, this`consecutiveFailures, this`probesSinceOpen
      modifies this`primaryServed, this`fallbackServed, this`totalPrimaryAttempts, this`tripped, this`recovered
      ensures Trace(Now(), [record]) == Step(p, old(Now()), condition)
      ensures primaryServed == old(primaryServed) + (if record.role == Primary then 1 else 0)
      ensures fallbackServed == old(fallbackServed) + (if record.role == Fallback then 1 else 0)
      ensures totalPrimaryAttempts == old(totalPrimaryAttempts) + record.attempts
      ensures tripped == (old(tripped) || record.transition == Trip)
      ensures recovered == (old(recovered) || record.transition == Recovered)
    {
      var before := state;
      if state == Open && probesSinceOpen >= p.cooldown {
        state := HalfOpen;
      }
      var handling := state;

      var attempts: nat;
      var served, role, fromModel, reason, transition;
      if state == Open {
        attempts := 0;
        probesSinceOpen := probesSinceOpen + 1;
        served, role, fromModel, reason := p.fallback, Fallback, Some(p.primary), "fallback_fast";
        transition := Shed;
        fallbackServed := fallbackServed + 1;
      } else if state == HalfOpen {
        attempts := 1;
        totalPrimaryAttempts := totalPrimaryAttempts + 1;
        if IsHealthy(condition) {
          state, consecutiveFailures, probesSinceOpen := Closed, 0, 0;
          recovered := true;
          served, role, fromModel, reason := p.primary, Primary, None, "primary_recovered";
          transition := Recovered;
          primaryServed := primaryServed + 1;
        } else {
          state, probesSinceOpen := Open, 0;
          served, role, fromModel, reason := p.fallback, Fallback, Some(p.primary), "fallback_fast";
          transition := ProbeFailed;
          fallbackServed := fallbackServed + 1;
        }
      } else if IsHealthy(condition) {
        attempts := 1;
        totalPrimaryAttempts := totalPrimaryAttempts + 1;
        consecutiveFailures := 0;
        served, role, fromModel, reason := p.primary, Primary, None, "primary_ok";
        transition := Healthy;
        primaryServed := primaryServed + 1;
      } else {
        attempts := p.maxAttempts;
        totalPrimaryAttempts := totalPrimaryAttempts + p.maxAttempts;
        consecutiveFailures := consecutiveFailures + 1;
        served, role, fromModel, reason := p.fallback, Fallback, Some(p.primary), "fallback_after_retry";
        transition := Failover;
        fallbackServed := fallbackServed + 1;
        if consecutiveFailures >= p.threshold {
          state, probesSinceOpen := Open, 0;
          tripped := true;
          transition := Trip;
        }
      }
      record := Record(condition, before, handling, state, transition, served, role, fromModel,
                       reason, attempts);
    }

    /** Serve one request and file its timeline and retry-log entries. */
    method Handle(p: Policy, condition: string, ghost conds: seq<string>) returns (record: Record)
      requires Tracks(p, conds)
      modifies this
      ensures Tracks(p, conds + [condition])
      ensures timeline == old(timeline) + [record]
      ensures primaryServed == old(primaryServed) + (if record.role == Primary then 1 else 0)
      ensures fallbackServed == old(fallbackServed) + (if record.role == Fallback then 1 else 0)
    {
      hide Run, Evidence, Step, RetryOf;
      EvidenceStep(timeline, retrylog, primaryServed, fallbackServed, totalPrimaryAttempts, tripped, recovered);
      RunSnoc(p, INITIAL, conds, condition);
      record := Serve(p, condition);
      timeline := timeline + [record];
      retrylog := retrylog + [RetryOf(record)];
    }

    method Summarise(p: Policy, conds: seq<string>) returns (summary: Summary)
      requires Tracks(p, conds)
      ensures Summarises(summary, p, conds)
    {
      summary := Summary(|conds|, primaryServed, fallbackServed, tripped, recovered, state,
                         totalPrimaryAttempts, p.maxAttempts * |conds|, AttemptsWithoutBreaker(p, conds));
    }
  }

  /** The drill loop: serve every request, insert its receipt, bump its role's tally. */
  method ServeAll(redis: CircuitKeys, db: Postgres, p: Policy, conds: seq<string>, ids: seq<Id>)
    returns (loop: DrillLoop)
    requires |ids| == |conds| && redis.primaryCount == redis.fallbackCount == 0
    modifies redis`primaryCount, redis`fallbackCount, db
    ensures loop.Tracks(p, conds)
    ensures redis.primaryCount == loop.primaryServed && redis.fallbackCount == loop.fallbackServed
    ensures |loop.timeline| == |ids|
    ensures db.receipts == InsertAll(old(db.receipts), ids, ReceiptsOf(loop.timeline))
  {
    hide Drill, Run, Evidence, CountIf, Attempts, InsertAll, ReceiptsOf, RetryLogOf;
    loop := new DrillLoop(p);
    ghost var before := db.receipts;
    FiledNothing(before);
    for i := 0 to |conds|
      invariant fresh(loop) && loop.Tracks(p, conds[..i])
      invariant redis.primaryCount == loop.primaryServed && redis.fallbackCount == loop.fallbackServed
      invariant Filed(before, ids[..i], loop.timeline, db.receipts)
    {
      ghost var done := loop.timeline;
      var record := loop.Handle(p, conds[i], conds[..i]);
      assert conds[..i + 1] == conds[..i] + [conds[i]];
      assert ids[..i + 1] == ids[..i] + [ids[i]];
      FileReceipt(db, record, ids[i], before, ids[..i], done);
      redis.CircuitIncr(record.role);
    }
    assert conds[..|conds|] == conds && ids[..|ids|] == ids;
  }

  /** Each timeline entry has had its receipt inserted, in order. */
  predicate Filed(before: Table, ids: seq<Id>, tl: seq<Record>, after: Table) {
    |ids| == |tl| && after == InsertAll(before, ids, ReceiptsOf(tl))
  }

  lemma FiledNothing(before: Table)
    ensures Filed(before, [], [], before)
  {
  }

  method FileReceipt(db: Postgres, record: Record, id: Id,
                     ghost before: Table, ghost ids: seq<Id>, ghost tl: seq<Record>)
    requires Filed(before, ids, tl, db.receipts)
    modifies db
    ensures Filed(before, ids + [id], tl + [record], db.receipts)
  {
    hide InsertAll, ReceiptsOf;
    ReceiptsSnoc(tl, record);
    InsertAllSnoc(before, ids, ReceiptsOf(tl), id, ReceiptOf(record));
    db.InsertReceipt(id, ReceiptOf(record));
  }

  /** Run the drill over the given conditions. `ids` are the request ids `uuid4` yields. */
  method RunDrill(redis: CircuitKeys, db: Postgres, p: Policy, conds: seq<string>, ids: seq<Id>)
    returns (summary: Summary)
    requires |ids| == |conds|
    modifies redis, db
    ensures redis.timeline == Drill(p, conds).timeline
    ensures redis.retrylog == RetryLogOf(redis.timeline)
    ensures var b := Drill(p, conds).breaker;
            redis.finalCircuit == Some(LiveState(b.circuit, b.failures, p.threshold))
    ensures redis.primaryCount == CountIf(redis.timeline, ServedByPrimary)
    ensures redis.fallbackCount == CountIf(redis.timeline, ServedByFallback)
    ensures redis.summary == Some(summary) && Summarises(summary, p, conds)
    ensures db.receipts
            == InsertAll(DeletePolicy(old(db.receipts), CIRCUIT_POLICY), ids, ReceiptsOf(redis.timeline))
    ensures OthersKept(old(db.receipts), db.receipts, "circuit_breaker")
  {
    hide Drill, CountIf, Attempts, InsertAll, ReceiptsOf, RetryLogOf, DeletePolicy, OthersKept;
    redis.ResetCircuit();
    db.ClearPolicy(CIRCUIT_POLICY);
    var loop := ServeAll(redis, db, p, conds, ids);
    redis.finalCircuit := Some(LiveState(loop.state, loop.consecutiveFailures, p.threshold));
    summary := loop.Summarise(p, conds);
    redis.timeline := loop.timeline;
    redis.retrylog := loop.retrylog;
    redis.summary := Some(summary);
    OthersKeptByInserts(old(db.receipts), CIRCUIT_POLICY, ids, ReceiptsOf(redis.timeline));
  }

  // ---------------------------------------------------------------- reconciliation

  /** `fallback_from IS NULL` among the circuit receipts. */
  predicate PrimaryReceipt(r: Receipt) {
    r.policyName == CIRCUIT_POLICY && r.fallbackFrom == None
  }

  predicate FallbackReceipt(r: Receipt) {
    r.policyName == CIRCUIT_POLICY && r.fallbackFrom != None
  }

  predicate LoggedPrimary(e: RetryEntry) { e.outcome == PrimaryServed }

  predicate LoggedFallback(e: RetryEntry) { e.outcome == FailedOver }

  datatype Reconciliation = Reconciliation(countsAgree: bool, recovered: bool, receiptsComplete: bool) {
    predicate Confirmed() { countsAgree && recovered && receiptsComplete }
  }

  /** The failover reconciliation over whatever the stores hold; with no summary stored the
      caller's counts read as zero and the recovery as false. */
  function Reconcile(summary: Option<Summary>, t: Table, retrylog: seq<RetryEntry>): Reconciliation {
    var primary := if summary.Some? then summary.value.primaryServed else 0;
    var fallback := if summary.Some? then summary.value.fallbackServed else 0;
    var receiptPrimary, receiptFallback := CountWhere(t, PrimaryReceipt), CountWhere(t, FallbackReceipt);
    Reconciliation(
      primary == receiptPrimary == CountIf(retrylog, LoggedPrimary)
      && fallback == receiptFallback == CountIf(retrylog, LoggedFallback),
      summary.Some? && summary.value.recovered,
      primary + fallback > 0 && receiptPrimary + receiptFallback == primary + fallback)
  }

  predicate RolesMarked(tl: seq<Record>) {
    forall i | 0 <= i < |tl| :: tl[i].role == Primary <==> tl[i].fallbackFrom == None
  }

  lemma RolesMarkedInDrill(p: Policy, conds: seq<string>)
    ensures RolesMarked(Drill(p, conds).timeline)
  {
    hide Run;
    var tl := Drill(p, conds).timeline;
    forall i | 0 <= i < |tl| ensures tl[i].role == Primary <==> tl[i].fallbackFrom == None {
      PrimaryServedIsHealthy(p, conds, i);
    }
  }

  lemma RowsAgree(r: Record)
    requires r.role == Primary <==> r.fallbackFrom == None
    ensures PrimaryReceipt(ReceiptOf(r)) == LoggedPrimary(RetryOf(r)) == ServedByPrimary(r)
    ensures FallbackReceipt(ReceiptOf(r)) == LoggedFallback(RetryOf(r)) == ServedByFallback(r)
  {
  }

  /** The three ledgers count each role alike, record by record. */
  lemma {:induction false} LedgersAgree(tl: seq<Record>)
    requires RolesMarked(tl)
    ensures CountIf(ReceiptsOf(tl), PrimaryReceipt) == CountIf(tl, ServedByPrimary)
            == CountIf(RetryLogOf(tl), LoggedPrimary)
    ensures CountIf(ReceiptsOf(tl), FallbackReceipt) == CountIf(tl, ServedByFallback)
            == CountIf(RetryLogOf(tl), LoggedFallback)
  {
    hide ReceiptOf, RetryOf, PrimaryReceipt, FallbackReceipt, LoggedPrimary, LoggedFallback;
    if |tl| == 0 {
    } else {
      var init, last := tl[..|tl| - 1], tl[|tl| - 1];
      LedgersAgree(init);
      RowsAgree(last);
      CountSnoc(ReceiptsOf(init), ReceiptOf(last), PrimaryReceipt);
      CountSnoc(ReceiptsOf(init), ReceiptOf(last), FallbackReceipt);
      CountSnoc(RetryLogOf(init), RetryOf(last), LoggedPrimary);
      CountSnoc(RetryLogOf(init), RetryOf(last), LoggedFallback);
    }
  }

  /** For every drill, whatever rows other features left in the table: caller summary,
      receipts and retry log agree per role, and add up to one answer per request. */
  lemma DrillLedgersAgree(p: Policy, conds: seq<string>, table: Table, ids: seq<Id>, s: Summary)
    requires |ids| == |conds| && Fresh(DeletePolicy(table, CIRCUIT_POLICY), ids)
    requires Summarises(s, p, conds)
    ensures var tl := Drill(p, conds).timeline;
            var t := InsertAll(DeletePolicy(table, CIRCUIT_POLICY), ids, ReceiptsOf(tl));
            && s.primaryServed == CountWhere(t, PrimaryReceipt) == CountIf(RetryLogOf(tl), LoggedPrimary)
            && s.fallbackServed == CountWhere(t, FallbackReceipt) == CountIf(RetryLogOf(tl), LoggedFallback)
            && s.primaryServed + s.fallbackServed == |conds|
  {
    hide Run, InsertAll, CountIf, Attempts, ReceiptsOf, RetryLogOf, AttemptsWithoutBreaker;
    var tl := Drill(p, conds).timeline;
    var cleared := DeletePolicy(table, CIRCUIT_POLICY);
    RolesMarkedInDrill(p, conds);
    LedgersAgree(tl);
    InsertAllConserves(cleared, ids, ReceiptsOf(tl), PrimaryReceipt);
    InsertAllConserves(cleared, ids, ReceiptsOf(tl), FallbackReceipt);
    DeletePolicyClears(table, CIRCUIT_POLICY, PrimaryReceipt);
    DeletePolicyClears(table, CIRCUIT_POLICY, FallbackReceipt);
    RolesPartition(tl);
  }

  predicate HasRecovery(tl: seq<Record>) {
    exists i | 0 <= i < |tl| :: tl[i].transition == Recovered
  }

  lemma RecoveryCounted(tl: seq<Record>)
    ensures CountIf(tl, Is(Recovered)) > 0 <==> HasRecovery(tl)
  {
    CountZero(tl, Is(Recovered));
    assert forall i | 0 <= i < |tl| :: Is(Recovered)(tl[i]) <==> tl[i].transition == Recovered;
  }

  lemma RecoveryNeedsRequest(tl: seq<Record>)
    requires HasRecovery(tl)
    ensures |tl| > 0
  {
  }

  /** The reconciliation of a drill's summary against a table and a retry log that need not be
      that drill's: confirmed exactly when a probe recovered the circuit and both ledgers count,
      per role, the drill's own records, not one more or less. */
  lemma ConfirmedIffLedgersAgree(p: Policy, conds: seq<string>, s: Summary, t: Table, retrylog: seq<RetryEntry>)
    requires Summarises(s, p, conds)
    ensures var tl := Drill(p, conds).timeline;
            Reconcile(Some(s), t, retrylog).Confirmed()
            <==> && HasRecovery(tl)
                 && CountWhere(t, PrimaryReceipt) == CountIf(tl, ServedByPrimary) == CountIf(retrylog, LoggedPrimary)
                 && CountWhere(t, FallbackReceipt) == CountIf(tl, ServedByFallback) == CountIf(retrylog, LoggedFallback)
  {
    hide Run, CountIf, Attempts, AttemptsWithoutBreaker, Select;
    var tl := Drill(p, conds).timeline;
    RecoveryCounted(tl);
    RolesPartition(tl);
    if HasRecovery(tl) { RecoveryNeedsRequest(tl); }
  }

  /** Without a stored summary nothing is confirmed, whatever the other ledgers hold. */
  lemma NoSummaryBlocks(t: Table, retrylog: seq<RetryEntry>)
    ensures !Reconcile(None, t, retrylog).Confirmed()
  {
  }

  predicate CircuitReceipt(r: Receipt) {
    r.policyName == CIRCUIT_POLICY
  }

  /** Each circuit receipt is of one role. */
  lemma RoleReceipts(t: Table)
    ensures CountWhere(t, PrimaryReceipt) + CountWhere(t, FallbackReceipt) == CountWhere(t, CircuitReceipt)
  {
    assert Select(t, CircuitReceipt) == Select(t, PrimaryReceipt) + Select(t, FallbackReceipt);
    assert Select(t, PrimaryReceipt) !! Select(t, FallbackReceipt);
  }

  /** A table's size is what it held before plus the drill's receipts that made it in. */
  lemma {:induction false} CircuitReceiptsCount(cleared: Table, ids: seq<Id>, tl: seq<Record>)
    requires |ids| == |tl| && CountWhere(cleared, CircuitReceipt) == 0
    ensures var t := InsertAll(cleared, ids, ReceiptsOf(tl));
            |t| == |cleared| + CountWhere(t, CircuitReceipt)
  {
    hide Select, Insert, ReceiptOf;
    if |ids| == 0 {
    } else {
      var n := |ids| - 1;
      var prev := InsertAll(cleared, ids[..n], ReceiptsOf(tl[..n]));
      CircuitReceiptsCount(cleared, ids[..n], tl[..n]);
      InsertSizeIff(prev, ids[n], ReceiptOf(tl[n]));
      if ids[n] !in prev {
        InsertCount(prev, ids[n], ReceiptOf(tl[n]), CircuitReceipt);
        ReceiptIsCircuit(tl[n]);
      } else {
        InsertKnown(prev, ids[n], ReceiptOf(tl[n]));
      }
    }
  }

  lemma ReceiptIsCircuit(r: Record)
    ensures CircuitReceipt(ReceiptOf(r))
  {
  }

  lemma InsertKnown(t: Table, id: Id, r: Receipt)
    requires id in t
    ensures Insert(t, id, r) == t
  {
  }

  /** The failover reconciliation right after a drill is confirmed exactly when some probe
      recovered the circuit and the ids were fresh: a collision loses a receipt. */
  lemma ConfirmedIffRecovered(p: Policy, conds: seq<string>, table: Table, ids: seq<Id>, s: Summary)
    requires |ids| == |conds| && Summarises(s, p, conds)
    ensures var tl := Drill(p, conds).timeline;
            var t := InsertAll(DeletePolicy(table, CIRCUIT_POLICY), ids, ReceiptsOf(tl));
            Reconcile(Some(s), t, RetryLogOf(tl)).Confirmed()
            <==> HasRecovery(tl) && Fresh(DeletePolicy(table, CIRCUIT_POLICY), ids)
  {
    hide Run, InsertAll, CountIf, Attempts, ReceiptsOf, RetryLogOf, AttemptsWithoutBreaker, Reconcile, Select,
      DeletePolicy, Summarises, Fresh;
    var tl, cleared := Drill(p, conds).timeline, DeletePolicy(table, CIRCUIT_POLICY);
    var t := InsertAll(cleared, ids, ReceiptsOf(tl));
    ConfirmedIffLedgersAgree(p, conds, s, t, RetryLogOf(tl));
    RolesPartition(tl);
    RoleReceipts(t);
    DeletePolicyClears(table, CIRCUIT_POLICY, CircuitReceipt);
    CircuitReceiptsCount(cleared, ids, tl);
    InsertAllLoses(cleared, ids, ReceiptsOf(tl));
    SummaryRoles(p, conds, s);
    if Fresh(cleared, ids) { DrillLedgersAgree(p, conds, table, ids, s); }
  }

  lemma SummaryRoles(p: Policy, conds: seq<string>, s: Summary)
    requires Summarises(s, p, conds)
    ensures var tl := Drill(p, conds).timeline;
            s.primaryServed == CountIf(tl, ServedByPrimary) && s.fallbackServed == CountIf(tl, ServedByFallback)
  {
  }

  /** Two drills that both clear before either inserts leave a summary of one and receipts of
      two, which is never confirmed. */
  lemma OverlappingDrillsBlocked(p: Policy, conds: seq<string>, table: Table, ids: seq<Id>, ids2: seq<Id>, s: Summary)
    requires Summarises(s, p, conds) && |conds| > 0 && |ids| == |ids2| == |conds|
    requires Fresh(DeletePolicy(table, CIRCUIT_POLICY), ids + ids2)
    ensures var rs := ReceiptsOf(Drill(p, conds).timeline);
            var t := InsertAll(DeletePolicy(table, CIRCUIT_POLICY), ids + ids2, rs + rs);
            !Reconcile(Some(s), t, RetryLogOf(Drill(p, conds).timeline)).Confirmed()
  {
    hide Run, InsertAll, CountIf, Attempts, ReceiptsOf, RetryLogOf, AttemptsWithoutBreaker, Reconcile, Select,
      DeletePolicy, Summarises, Fresh;
    var tl, cleared := Drill(p, conds).timeline, DeletePolicy(table, CIRCUIT_POLICY);
    var rs := ReceiptsOf(tl);
    var t := InsertAll(cleared, ids + ids2, rs + rs);
    RolesMarkedInDrill(p, conds);
    LedgersAgree(tl);
    DeletePolicyClears(table, CIRCUIT_POLICY, PrimaryReceipt);
    DeletePolicyClears(table, CIRCUIT_POLICY, FallbackReceipt);
    InsertAllConserves(cleared, ids + ids2, rs + rs, PrimaryReceipt);
    InsertAllConserves(cleared, ids + ids2, rs + rs, FallbackReceipt);
    CountConcat(rs, rs, PrimaryReceipt);
    CountConcat(rs, rs, FallbackReceipt);
    RolesPartition(tl);
    ConfirmedIffLedgersAgree(p, conds, s, t, RetryLogOf(tl));
  }

  /** Any drill that ends open becomes confirmable by healing the provider for one cooldown
      and one probe. */
  lemma HealedDrillConfirmed(p: Policy, before: seq<string>, healed: seq<string>,
                             table: Table, ids: seq<Id>, s: Summary)
    requires Drill(p, before).breaker.circuit == Open
    requires AllHealthy(healed) && |healed| >= p.cooldown + 1
    requires |ids| == |before + healed| && Fresh(DeletePolicy(table, CIRCUIT_POLICY), ids)
    requires Summarises(s, p, before + healed)
    ensures var tl := Drill(p, before + healed).timeline;
            var t := InsertAll(DeletePolicy(table, CIRCUIT_POLICY), ids, ReceiptsOf(tl));
            Reconcile(Some(s), t, RetryLogOf(tl)).Confirmed() && s.finalState == Closed
  {
    var b := Drill(p, before).breaker;
    ReachableSettled(p, before);
    HealingRun(p, b, healed);
    RunConcat(p, INITIAL, before, healed);
    var tl := Drill(p, before + healed).timeline;
    assert tl[|before| + p.cooldown - b.probes] == Run(p, b, healed).timeline[p.cooldown - b.probes];
    ConfirmedIffRecovered(p, before + healed, table, ids, s);
  }
}
