/** The admission service: the stores the script, the tally and the log live in, one submit,
    and the spike that repeats it. */
module AdmissionService {
  import opened Arithmetic
  import opened Counting
  import opened Ledger
  import opened Admission

  const ADMISSION_POLICY := "admission_control"

  /** The structured decision log entry. */
  datatype Event = Event(requestId: Id, model: string, limiterKey: string, decision: Decision)

  function DispositionName(d: Disposition): string {
    match d
    case Accepted => "accepted"
    case Delayed => "delayed"
    case Rejected => "rejected"
  }

  function ReceiptFor(model: string, d: Disposition): Receipt {
    Receipt(model, "admission_" + DispositionName(d), ADMISSION_POLICY, Some(d), None)
  }

  /** An admission receipt names its model, and its reason spells its disposition. */
  lemma ReceiptSpellsDisposition(model: string)
    ensures ReceiptFor(model, Accepted)
            == Receipt(model, "admission_accepted", "admission_control", Some(Accepted), None)
    ensures ReceiptFor(model, Delayed)
            == Receipt(model, "admission_delayed", "admission_control", Some(Delayed), None)
    ensures ReceiptFor(model, Rejected)
            == Receipt(model, "admission_rejected", "admission_control", Some(Rejected), None)
  {
    assert "admission_" + "accepted" == "admission_accepted";
    assert "admission_" + "delayed" == "admission_delayed";
    assert "admission_" + "rejected" == "admission_rejected";
  }

  function HasDisposition(d: Disposition): Receipt -> bool {
    (r: Receipt) => r.disposition == Some(d)
  }

  /** No other configured model has this model's limiter key. */
  predicate OwnKey(cfg: Limits, model: string) {
    && model in cfg
    && forall m | m in cfg && m != model :: LimiterKey(cfg, m) != LimiterKey(cfg, model)
  }

  lemma OwnKeyIsolates(cfg: Limits, ops: seq<Op>, model: string)
    requires OwnKey(cfg, model)
    ensures Isolated(cfg, ops, model)
  {
    hide LimiterKey, SinceReset;
  }

  /** Every configured model has its own key. */
  lemma ConfiguredOwnKeys(model: string)
    requires model in LIMITS
    ensures OwnKey(LIMITS, model)
  {
    hide LimiterKey;
    forall m | m in LIMITS && m != model ensures LimiterKey(LIMITS, m) != LimiterKey(LIMITS, model) {
      ConfiguredIsolated([Submit(m, "req")], model);
      assert [Submit(m, "req")][0].model == m;
    }
  }

  /** The admission keys in Redis. `history` records the atomic operations the store has seen. */
  class ResilienceKeys {
    var admitted: map<string, int>
    var queues: map<string, seq<Id>>
    var accepted: nat
    var delayed: nat
    var rejected: nat
    var logs: seq<Event>
    ghost var history: seq<Op>

    ghost predicate Valid(cfg: Limits)
      reads this
    {
      Store(admitted, queues) == Run(cfg, history)
    }

    function Tally(): Counts
      reads this
    {
      Counts(accepted, delayed, rejected)
    }

    constructor (cfg: Limits)
      ensures Valid(cfg) && history == [] && logs == [] && Tally() == Counts(0, 0, 0)
    {
      admitted, queues := map[], map[];
      accepted, delayed, rejected := 0, 0, 0;
      logs, history := [], [];
    }

    /** The admission script: one atomic step over two keys. */
    method Admit(cfg: Limits, model: string, id: Id) returns (d: Decision)
      requires Valid(cfg) && model in cfg
      modifies this`admitted, this`queues, this`history
      ensures Valid(cfg) && history == old(history) + [Submit(model, id)]
      ensures d == Decide(cfg, Store(old(admitted), old(queues)), model)
    {
      hide LimiterKey;
      var key := LimiterKey(cfg, model);
      RunAppend(cfg, history, Submit(model, id));
      var count := if model in admitted then admitted[model] else 0;
      var queue := if key in queues then queues[key] else [];
      history := history + [Submit(model, id)];
      if count < cfg[model].rate {
        admitted := admitted[model := count + 1];
        return Decision(Accepted, count + 1, |queue|);
      }
      if |queue| < cfg[model].capacity {
        queues := queues[key := queue + [id]];
        return Decision(Delayed, count, |queue| + 1);
      }
      return Decision(Rejected, count, |queue|);
    }

    method DispositionIncr(d: Disposition)
      modifies this`accepted, this`delayed, this`rejected
      ensures Tally() == Bump(old(Tally()), d)
    {
      match d
      case Accepted => accepted := accepted + 1;
      case Delayed => delayed := delayed + 1;
      case Rejected => rejected := rejected + 1;
    }

    method LogAdmission(e: Event)
      modifies this`logs
      ensures logs == old(logs) + [e]
    {
      logs := logs + [e];
    }

    method ResetResilience(cfg: Limits)
      requires Valid(cfg)
      modifies this
      ensures Valid(cfg) && history == old(history) + [Reset]
      ensures logs == [] && Tally() == Counts(0, 0, 0)
    {
      hide LimiterKey;
      RunAppend(cfg, history, Reset);
      history := history + [Reset];
      admitted := admitted - cfg.Keys;
      queues := queues - (set m | m in cfg :: LimiterKey(cfg, m));
      accepted, delayed, rejected := 0, 0, 0;
      logs := [];
    }
  }

  /** Submit one request: decide, persist the receipt, bump the tally, log the decision. */
  method SubmitOne(redis: ResilienceKeys, db: Postgres, cfg: Limits, model: string, id: Id)
    returns (d: Decision)
    requires redis.Valid(cfg) && model in cfg
    modifies redis, db
    ensures redis.Valid(cfg) && redis.history == old(redis.history) + [Submit(model, id)]
    ensures d == Decide(cfg, Store(old(redis.admitted), old(redis.queues)), model)
    ensures Isolated(cfg, old(redis.history), model) ==>
              d == DecisionOf(cfg[model], |Submitted(old(redis.history), model)|)
    ensures db.receipts == Insert(old(db.receipts), id, ReceiptFor(model, d.disposition))
    ensures redis.Tally() == Bump(old(redis.Tally()), d.disposition)
    ensures redis.logs == old(redis.logs) + [Event(id, model, LimiterKey(cfg, model), d)]
  {
    hide LimiterKey, Apply, Decide, DecisionOf, ReceiptFor, Isolated;
    if Isolated(cfg, redis.history, model) { DecisionClosedForm(cfg, redis.history, model); }
    assert Store(redis.admitted, redis.queues) == Run(cfg, redis.history);
    d := redis.Admit(cfg, model, id);
    db.InsertReceipt(id, ReceiptFor(model, d.disposition));
    redis.DispositionIncr(d.disposition);
    redis.LogAdmission(Event(id, model, LimiterKey(cfg, model), d));
  }

  /** The receipts and log entries of a burst, in order. */
  function BurstReceipts(model: string, l: Limit, n: nat): (rs: seq<Receipt>)
    ensures |rs| == n
  {
    if n == 0 then [] else BurstReceipts(model, l, n - 1) + [ReceiptFor(model, FateOf(l, n - 1))]
  }

  function BurstLog(cfg: Limits, model: string, ids: seq<Id>): (log: seq<Event>)
    requires model in cfg
    ensures |log| == |ids|
  {
    if |ids| == 0 then []
    else BurstLog(cfg, model, ids[..|ids| - 1])
         + [Event(ids[|ids| - 1], model, LimiterKey(cfg, model), DecisionOf(cfg[model], |ids| - 1))]
  }

  /** Entry k of the log, and receipt k, are those of the k-th request's own decision. */
  lemma {:induction false} BurstEvidenceAt(cfg: Limits, model: string, ids: seq<Id>, k: nat)
    requires model in cfg && k < |ids|
    ensures BurstLog(cfg, model, ids)[k] == Event(ids[k], model, LimiterKey(cfg, model), DecisionOf(cfg[model], k))
    ensures BurstReceipts(model, cfg[model], |ids|)[k] == ReceiptFor(model, FateOf(cfg[model], k))
  {
    hide LimiterKey, DecisionOf, FateOf, ReceiptFor;
    if k == |ids| - 1 {
    } else {
      BurstEvidenceAt(cfg, model, ids[..|ids| - 1], k);
    }
  }

  datatype SpikeSummary = SpikeSummary(counts: Counts, queueDepth: nat, queueFull: bool)

  /** What a spike of these ids leaves behind, given what it found. */
  predicate SpikeEvidence(cfg: Limits, model: string, ids: seq<Id>, cleared: Table,
                          history: seq<Op>, tally: Counts, logs: seq<Event>, receipts: Table)
    requires model in cfg
  {
    && Submitted(history, model) == ids
    && tally == BurstCounts(cfg[model], |ids|)
    && logs == BurstLog(cfg, model, ids)
    && receipts == InsertAll(cleared, ids, BurstReceipts(model, cfg[model], |ids|))
  }

  lemma SpikeStep(cfg: Limits, model: string, ids: seq<Id>, id: Id, cleared: Table,
                  history: seq<Op>, tally: Counts, logs: seq<Event>, receipts: Table)
    requires model in cfg && SpikeEvidence(cfg, model, ids, cleared, history, tally, logs, receipts)
    ensures var d := DecisionOf(cfg[model], |ids|);
            SpikeEvidence(cfg, model, ids + [id], cleared, history + [Submit(model, id)],
                          Bump(tally, d.disposition),
                          logs + [Event(id, model, LimiterKey(cfg, model), d)],
                          Insert(receipts, id, ReceiptFor(model, d.disposition)))
  {
    hide LimiterKey, ReceiptFor, InsertAll;
    SubmittedAppend(history, Submit(model, id), model);
    assert (ids + [id])[..|ids|] == ids;
    InsertAllSnoc(cleared, ids, BurstReceipts(model, cfg[model], |ids|), id,
                  ReceiptFor(model, FateOf(cfg[model], |ids|)));
  }

  /** The deterministic spike: reset, clear earlier admission receipts, submit one request
      per id. */
  method RunSpike(redis: ResilienceKeys, db: Postgres, cfg: Limits, model: string, ids: seq<Id>)
    returns (summary: SpikeSummary)
    requires redis.Valid(cfg) && model in cfg
    modifies redis, db
    ensures redis.Valid(cfg)
    ensures SpikeEvidence(cfg, model, ids, DeletePolicy(old(db.receipts), ADMISSION_POLICY),
                          redis.history, redis.Tally(), redis.logs, db.receipts)
    ensures OthersKept(old(db.receipts), db.receipts, "admission_control")
    ensures summary.counts == BurstCounts(cfg[model], |ids|)
    ensures summary.queueDepth == Min(|ids|, Room(cfg[model])) - Min(|ids|, AtLeastZero(cfg[model].rate))
    ensures summary.queueFull <==> summary.queueDepth >= cfg[model].capacity
  {
    hide LimiterKey, Run, DecisionOf, ReceiptFor, InsertAll, BurstCounts, BurstLog, BurstReceipts, Submitted, Bump,
      SpikeEvidence, FateOf, Isolated, DeletePolicy, OthersKept;
    SubmittedAppend(redis.history, Reset, model);
    IsolatedAppend(cfg, redis.history, Reset, model);
    redis.ResetResilience(cfg);
    db.ClearPolicy(ADMISSION_POLICY);
    ghost var cleared := db.receipts;
    SpikeStart(cfg, model, cleared, redis.history);

    var counts := Counts(0, 0, 0);
    for i := 0 to |ids|
      invariant redis.Valid(cfg) && Isolated(cfg, redis.history, model)
      invariant SpikeEvidence(cfg, model, ids[..i], cleared, redis.history, redis.Tally(), redis.logs, db.receipts)
      invariant counts == redis.Tally()
    {
      IsolatedAppend(cfg, redis.history, Submit(model, ids[i]), model);
      SpikeStep(cfg, model, ids[..i], ids[i], cleared, redis.history, redis.Tally(), redis.logs, db.receipts);
      SpikeFacts(cfg, model, ids[..i], cleared, redis.history, redis.Tally(), redis.logs, db.receipts);
      var d := SubmitOne(redis, db, cfg, model, ids[i]);
      counts := Bump(counts, d.disposition);
      assert ids[..i + 1] == ids[..i] + [ids[i]];
    }
    assert ids[..|ids|] == ids;
    SpikeFacts(cfg, model, ids, cleared, redis.history, redis.Tally(), redis.logs, db.receipts);
    StoreClosedForm(cfg, redis.history, model);
    var key := LimiterKey(cfg, model);
    var depth := if key in redis.queues then |redis.queues[key]| else 0;
    summary := SpikeSummary(counts, depth, depth >= cfg[model].capacity);
    OthersKeptByInserts(old(db.receipts), ADMISSION_POLICY, ids, BurstReceipts(model, cfg[model], |ids|));
  }

  lemma SpikeStart(cfg: Limits, model: string, cleared: Table, history: seq<Op>)
    requires model in cfg && Submitted(history, model) == []
    ensures SpikeEvidence(cfg, model, [], cleared, history, Counts(0, 0, 0), [], cleared)
  {
  }

  lemma SpikeFacts(cfg: Limits, model: string, ids: seq<Id>, cleared: Table,
                   history: seq<Op>, tally: Counts, logs: seq<Event>, receipts: Table)
    requires model in cfg && SpikeEvidence(cfg, model, ids, cleared, history, tally, logs, receipts)
    ensures Submitted(history, model) == ids && tally == BurstCounts(cfg[model], |ids|)
    ensures receipts == InsertAll(cleared, ids, BurstReceipts(model, cfg[model], |ids|))
  {
  }

  function OfDisposition(c: Counts, d: Disposition): int {
    match d
    case Accepted => c.accepted
    case Delayed => c.delayed
    case Rejected => c.rejected
  }

  lemma {:induction false} BurstReceiptCount(model: string, l: Limit, n: nat, d: Disposition)
    ensures CountIf(BurstReceipts(model, l, n), HasDisposition(d)) == OfDisposition(BurstCounts(l, n), d)
  {
    hide CountIf, FateOf;
    if n == 0 {
      CountZero(BurstReceipts(model, l, 0), HasDisposition(d));
    } else {
      BurstReceiptCount(model, l, n - 1, d);
      CountSnoc(BurstReceipts(model, l, n - 1), ReceiptFor(model, FateOf(l, n - 1)), HasDisposition(d));
    }
  }

  /** After a spike with fresh ids the durable receipts, the Redis tally and the projected
      matrix row all say the same, whatever other rows the table holds. */
  lemma SpikeReconciles(cfg: Limits, model: string, ids: seq<Id>, table: Table,
                        history: seq<Op>, tally: Counts, logs: seq<Event>, receipts: Table, d: Disposition)
    requires model in cfg && 0 <= cfg[model].rate
    requires forall id | id in table :: table[id].policyName != ADMISSION_POLICY ==> table[id].disposition == None
    requires Fresh(DeletePolicy(table, ADMISSION_POLICY), ids)
    requires SpikeEvidence(cfg, model, ids, DeletePolicy(table, ADMISSION_POLICY), history, tally, logs, receipts)
    ensures CountWhere(receipts, HasDisposition(d)) == OfDisposition(tally, d)
            == OfDisposition(MatrixRow(cfg[model], |ids|), d)
    ensures |logs| == |ids|
  {
    hide BurstCounts, BurstReceipts, MatrixRow, InsertAll, CountIf;
    var cleared := DeletePolicy(table, ADMISSION_POLICY);
    var rs := BurstReceipts(model, cfg[model], |ids|);
    InsertAllConserves(cleared, ids, rs, HasDisposition(d));
    BurstReceiptCount(model, cfg[model], |ids|, d);
    assert Select(cleared, HasDisposition(d)) == {};
    MatrixIsBurstIff(cfg[model], |ids|);
  }
}
