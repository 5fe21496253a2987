/** The mixed batch: weighted and payload requests persisted, tallied by kind, interleaved
    into a sample, and reconciled across three ledgers. */
module MixedBatch {
  import opened Arithmetic
  import opened Counting
  import opened Ledger
  import opened SmartRouting
  import opened WeightedRouting

  const SMART_POLICY := "payload_smart"

  /** A declared smart request. */
  datatype Case = Case(taskClass: Option<string>, overrideClass: Option<string>)

  /** What a request is tallied as, and the receipt it leaves. */
  datatype Routed = Routed(kind: Kind, receipt: Receipt)

  function RouteWeightedAt(picks: seq<string>, i: nat): Routed
    requires |picks| > 0
  {
    Routed(Weighted, WeightedReceipt(RouteWeighted(picks, i).value))
  }

  function RouteSmart(t: Tables, c: Case): Routed
    requires Complete(t)
  {
    var d := SmartDecision(t, c.taskClass, c.overrideClass);
    Routed(TalliedKind(d), Receipt(d.selectedModel, d.routeReason, SMART_POLICY, None, None))
  }

  /** The whole batch in order: the weighted requests, then the smart cases. */
  function BatchOf(t: Tables, picks: seq<string>, weighted: nat, cases: seq<Case>): (b: seq<Routed>)
    requires Complete(t) && |picks| > 0
    ensures |b| == weighted + |cases|
  {
    if |cases| > 0 then
      BatchOf(t, picks, weighted, cases[..|cases| - 1]) + [RouteSmart(t, cases[|cases| - 1])]
    else if weighted > 0 then
      BatchOf(t, picks, weighted - 1, []) + [RouteWeightedAt(picks, weighted - 1)]
    else []
  }

  function ReceiptsOf(b: seq<Routed>): (rs: seq<Receipt>)
    ensures |rs| == |b|
  {
    if |b| == 0 then [] else ReceiptsOf(b[..|b| - 1]) + [b[|b| - 1].receipt]
  }

  function OfKind(k: Kind): Routed -> bool {
    (r: Routed) => r.kind == k
  }

  function ReceiptOfKind(k: Kind): Receipt -> bool {
    (r: Receipt) => ReceiptKind(r.routeReason) == k
  }

  /** The policy disagrees with the kind the reason names. */
  predicate Inconsistent(r: Receipt) {
    match ReceiptKind(r.routeReason)
    case Weighted => r.policyName != WEIGHTED_POLICY
    case Override => r.policyName != SMART_POLICY
    case Payload => r.policyName != SMART_POLICY
    case Other => false
  }

  predicate AnyReceipt(r: Receipt) { true }

  /** Tallies by kind; a missing kind reads as zero. */
  type Tallies = map<Kind, nat>

  function Tally(m: Tallies, k: Kind): nat {
    if k in m then m[k] else 0
  }

  /** The kinds the batch tallies and the disposition compares. */
  predicate Counted(k: Kind) { k != Other }

  // ---------------------------------------------------------------- what the receipts say

  /** The weighted requests come first, each a receipt of the sequence's tier at its index. */
  lemma {:induction false} WeightedInBatch(t: Tables, picks: seq<string>, weighted: nat, cases: seq<Case>, i: nat)
    requires Complete(t) && |picks| > 0 && i < weighted
    ensures BatchOf(t, picks, weighted, cases)[i]
            == Routed(Weighted, Receipt(picks[i % |picks|], "weighted_distribution", "weighted", None, None))
    decreases |cases|, weighted
  {
    if |cases| > 0 {
      WeightedInBatch(t, picks, weighted, cases[..|cases| - 1], i);
    } else if i < weighted - 1 {
      assert cases == [];
      WeightedInBatch(t, picks, weighted - 1, [], i);
    } else {
      assert cases == [];
    }
  }

  /** Then one receipt per case, in order: its own decision's model and reason. */
  lemma {:induction false} CaseInBatch(t: Tables, picks: seq<string>, weighted: nat, cases: seq<Case>, j: nat)
    requires Complete(t) && |picks| > 0 && j < |cases|
    ensures BatchOf(t, picks, weighted, cases)[weighted + j] == RouteSmart(t, cases[j])
  {
    if j < |cases| - 1 {
      CaseInBatch(t, picks, weighted, cases[..|cases| - 1], j);
    }
  }

  /** A declared class routes to the tier of its level, an override class to its rule's tier,
      and the receipt says which. */
  lemma CaseReceipt(t: Tables, c: Case)
    requires Complete(t) && "" !in t.overrideRules
    ensures var r := RouteSmart(t, c);
            && r.receipt.policyName == "payload_smart"
            && r.receipt.disposition == None && r.receipt.fallbackFrom == None
            && (c.overrideClass.Some? && c.overrideClass.value in t.overrideRules ==>
                  && r.kind == Override
                  && r.receipt.selectedModel == t.overrideRules[c.overrideClass.value].model
                  && r.receipt.routeReason == "override_" + c.overrideClass.value)
            && (c.overrideClass == None || c.overrideClass.value !in t.overrideRules ==>
                  && r.kind == Payload
                  && (c.taskClass.Some? && c.taskClass.value in t.taskComplexity ==>
                        && r.receipt.selectedModel == t.complexityTiers[t.taskComplexity[c.taskClass.value]]
                        && r.receipt.routeReason == "complexity_" + t.taskComplexity[c.taskClass.value])
                  && (c.taskClass.Some? && c.taskClass.value !in t.taskComplexity ==>
                        && r.receipt.selectedModel == t.complexityTiers[t.defaultComplexity]
                        && r.receipt.routeReason == "complexity_" + t.defaultComplexity))
  {
    hide SmartDecision, TaskComplexity;
    if c.overrideClass.Some? && c.overrideClass.value in t.overrideRules {
      RulePinsTier(t, c.taskClass, c.overrideClass.value);
    } else {
      TaskSelectsTier(t, c.taskClass, c.overrideClass);
    }
  }

  /** The six canonical cases every mixed batch runs. */
  const CASES: seq<Case> := [
    Case(Some("ticket_tag"), None), Case(Some("doc_summary"), None), Case(Some("bug_triage"), None),
    Case(Some("incident_analysis"), None), Case(Some("ticket_tag"), Some("legal_review")),
    Case(Some("incident_analysis"), Some("bulk_batch"))]

  /** Their expected models and reasons, which the validation endpoint asserts. */
  const EXPECTED: seq<(string, string)> := [
    ("econo-mini", "complexity_simple"), ("econo-mini", "complexity_simple"),
    ("premium-max", "complexity_complex"), ("premium-max", "complexity_complex"),
    ("premium-max", "override_legal_review"), ("econo-mini", "override_bulk_batch")]

  lemma CanonicalPayload(task: string, level: string)
    requires task in TABLES.taskComplexity && TABLES.taskComplexity[task] == level
    ensures level in TABLES.complexityTiers
    ensures var r := RouteSmart(TABLES, Case(Some(task), None));
            && r.receipt.selectedModel == TABLES.complexityTiers[level]
            && r.receipt.routeReason == "complexity_" + level && r.kind == Payload
  {
    hide SmartDecision, RouteSmart;
    TablesAreSound();
    CaseReceipt(TABLES, Case(Some(task), None));
  }

  lemma CanonicalOverride(task: string, cls: string)
    requires cls in TABLES.overrideRules
    ensures var r := RouteSmart(TABLES, Case(Some(task), Some(cls)));
            && r.receipt.selectedModel == TABLES.overrideRules[cls].model
            && r.receipt.routeReason == "override_" + cls && r.kind == Override
  {
    hide SmartDecision, RouteSmart;
    TablesAreSound();
    CaseReceipt(TABLES, Case(Some(task), Some(cls)));
  }

  lemma PayloadReasons()
    ensures "complexity_" + "simple" == "complexity_simple"
    ensures "complexity_" + "complex" == "complexity_complex"
  {
  }

  lemma OverrideReasons()
    ensures "override_" + "legal_review" == "override_legal_review"
    ensures "override_" + "bulk_batch" == "override_bulk_batch"
  {
  }

  /** Every canonical case gets the model and the reason it is expected to get. */
  lemma CanonicalCases(i: nat)
    requires i < 6
    ensures var r := RouteSmart(TABLES, CASES[i]);
            && (r.receipt.selectedModel, r.receipt.routeReason) == EXPECTED[i]
            && r.kind == if i < 4 then Payload else Override
  {
    hide SmartDecision, Complete, RouteSmart;
    TablesAreSound();
    if i < 4 { CanonicalPayloads(i); } else { CanonicalOverrides(i); }
  }

  lemma CanonicalPayloads(i: nat)
    requires i < 4
    ensures var r := RouteSmart(TABLES, CASES[i]);
            (r.receipt.selectedModel, r.receipt.routeReason) == EXPECTED[i] && r.kind == Payload
  {
    hide SmartDecision, RouteSmart;
    TablesAreSound();
    PayloadReasons();
    CanonicalPayload("ticket_tag", "simple");
    CanonicalPayload("doc_summary", "simple");
    CanonicalPayload("bug_triage", "complex");
    CanonicalPayload("incident_analysis", "complex");
  }

  lemma CanonicalOverrides(i: nat)
    requires 4 <= i < 6
    ensures var r := RouteSmart(TABLES, CASES[i]);
            (r.receipt.selectedModel, r.receipt.routeReason) == EXPECTED[i] && r.kind == Override
  {
    hide SmartDecision, RouteSmart;
    TablesAreSound();
    OverrideReasons();
    CanonicalOverride("ticket_tag", "legal_review");
    CanonicalOverride("incident_analysis", "bulk_batch");
  }

  // ---------------------------------------------------------------- reconciliation

  datatype Report = Report(countsAgree: bool, receiptsComplete: bool, policiesConsistent: bool) {
    predicate Confirmed() { countsAgree && receiptsComplete && policiesConsistent }
  }

  function Total(api: Tallies): nat {
    Tally(api, Weighted) + Tally(api, Payload) + Tally(api, Override)
  }

  /** The disposition endpoint over the API summary, the Redis counters and the receipts. */
  function Disposition(api: Tallies, redis: Tallies, t: Table): Report {
    Report(
      forall k | Counted(k) ::
        Tally(api, k) == Tally(redis, k) == CountWhere(t, ReceiptOfKind(k)),
      Total(api) > 0 && CountWhere(t, AnyReceipt) == Total(api),
      CountWhere(t, Inconsistent) == 0)
  }

  /** Every receipt of the batch reads back as the kind it was tallied under, with the policy
      that goes with it. */
  predicate WellTagged(b: seq<Routed>) {
    forall i | 0 <= i < |b| ::
      Counted(b[i].kind) && ReceiptKind(b[i].receipt.routeReason) == b[i].kind && !Inconsistent(b[i].receipt)
  }

  lemma {:induction false} BatchWellTagged(t: Tables, picks: seq<string>, weighted: nat, cases: seq<Case>)
    requires Complete(t) && |picks| > 0 && "" !in t.overrideRules
    ensures WellTagged(BatchOf(t, picks, weighted, cases))
  {
    if |cases| == 0 && weighted == 0 {
    } else if |cases| == 0 {
      BatchWellTagged(t, picks, weighted - 1, []);
    } else {
      var c := cases[|cases| - 1];
      BatchWellTagged(t, picks, weighted, cases[..|cases| - 1]);
      KindAgreement(t, c.taskClass, c.overrideClass);
    }
  }

  lemma {:induction false} ReceiptsReadBack(b: seq<Routed>, k: Kind)
    requires WellTagged(b)
    ensures CountIf(ReceiptsOf(b), ReceiptOfKind(k)) == CountIf(b, OfKind(k))
    ensures CountIf(ReceiptsOf(b), Inconsistent) == 0
    ensures CountIf(ReceiptsOf(b), AnyReceipt) == |b|
  {
    hide CountIf, ReceiptKind, Inconsistent;
    if |b| == 0 {
      CountZero(ReceiptsOf(b), ReceiptOfKind(k));
      CountZero(b, OfKind(k));
      CountZero(ReceiptsOf(b), Inconsistent);
      CountZero(ReceiptsOf(b), AnyReceipt);
    } else {
      var init, last := b[..|b| - 1], b[|b| - 1];
      assert b == init + [last];
      ReceiptsReadBack(init, k);
      CountSnoc(init, last, OfKind(k));
      CountSnoc(ReceiptsOf(init), last.receipt, ReceiptOfKind(k));
      CountSnoc(ReceiptsOf(init), last.receipt, Inconsistent);
      CountSnoc(ReceiptsOf(init), last.receipt, AnyReceipt);
    }
  }

  lemma {:induction false} KindsPartition(b: seq<Routed>)
    requires WellTagged(b)
    ensures CountIf(b, OfKind(Weighted)) + CountIf(b, OfKind(Payload)) + CountIf(b, OfKind(Override)) == |b|
  {
    if |b| == 0 {
    } else {
      KindsPartition(b[..|b| - 1]);
    }
  }

  /** What one batch leaves in the three ledgers, given what they held before. */
  predicate BatchLedgers(b: seq<Routed>, ids: seq<Id>, t: Table, redis: Tallies,
                         api': Tallies, redis': Tallies, t': Table)
  {
    && |ids| == |b|
    && t' == InsertAll(t, ids, ReceiptsOf(b))
    && forall k | Counted(k) ::
         && Tally(api', k) == CountIf(b, OfKind(k))
         && Tally(redis', k) == Tally(redis, k) + CountIf(b, OfKind(k))
  }

  /** The query for receipts whose policy disagrees with their reason, as it is written: a
      different split of the reasons than by kind, and the same receipts. */
  lemma InconsistentIff(r: Receipt)
    ensures Inconsistent(r)
            <==> (r.routeReason == "weighted_distribution" && r.policyName != "weighted")
                 || ((LikeWordAnyRest(r.routeReason, "complexity") || LikeWordAnyRest(r.routeReason, "override"))
                     && r.policyName != "payload_smart")
  {
    assert "weighted_distribution"[0] == 'w' && "complexity"[0] == 'c' && "override"[0] == 'o';
    if LikeWordAnyRest(r.routeReason, "complexity") { assert r.routeReason[..10][0] == r.routeReason[0]; }
    if LikeWordAnyRest(r.routeReason, "override") { assert r.routeReason[..8][0] == r.routeReason[0]; }
  }

  /** The disposition of a batch's summary against counters and receipts that need not be that
      batch's: CONFIRMED exactly when the batch was not empty, both ledgers count each kind as
      often as the batch did, not one receipt is missing or extra, and every receipt's policy
      goes with its reason. */
  lemma ConfirmedIffLedgersAgree(b: seq<Routed>, api: Tallies, redis: Tallies, t: Table)
    requires WellTagged(b) && forall k | Counted(k) :: Tally(api, k) == CountIf(b, OfKind(k))
    ensures Disposition(api, redis, t).Confirmed()
            <==> && |b| > 0 && |t| == |b|
                 && (forall id | id in t :: !Inconsistent(t[id]))
                 && forall k | Counted(k) ::
                      CountIf(b, OfKind(k)) == Tally(redis, k) == CountWhere(t, ReceiptOfKind(k))
  {
    hide CountIf, WellTagged, ReceiptKind, Inconsistent;
    TotalIsSize(b, api);
    AllRows(t);
    NoneSelected(t, Inconsistent);
  }

  lemma NoneSelected(t: Table, p: Receipt -> bool)
    ensures CountWhere(t, p) == 0 <==> forall id | id in t :: !p(t[id])
  {
    if CountWhere(t, p) == 0 {
      forall id | id in t ensures !p(t[id]) { assert id !in Select(t, p); }
    } else {
      assert Select(t, p) != {};
    }
  }

  /** One batch over any stores: the disposition is CONFIRMED exactly when the batch was not
      empty, the table held no receipts and no kind had been tallied before. */
  lemma ConfirmedIffClean(b: seq<Routed>, ids: seq<Id>, t: Table, redis: Tallies,
                          api': Tallies, redis': Tallies, t': Table)
    requires WellTagged(b) && BatchLedgers(b, ids, t, redis, api', redis', t') && Fresh(t, ids)
    ensures Disposition(api', redis', t').Confirmed()
            <==> |b| > 0 && t == map[] && forall k | Counted(k) :: Tally(redis, k) == 0
  {
    hide CountIf, ReceiptsOf, InsertAll, Select, Inconsistent, WellTagged;
    KindsPartition(b);
    TotalIsSize(b, api');
    forall k | Counted(k)
      ensures CountWhere(t', ReceiptOfKind(k)) == CountWhere(t, ReceiptOfKind(k)) + CountIf(b, OfKind(k))
    {
      ReceiptsReadBack(b, k);
      InsertAllConserves(t, ids, ReceiptsOf(b), ReceiptOfKind(k));
    }
    ReceiptsReadBack(b, Weighted);
    InsertAllConserves(t, ids, ReceiptsOf(b), Inconsistent);
    InsertAllConserves(t, ids, ReceiptsOf(b), AnyReceipt);
    AllRows(t);
    if t == map[] {
      EmptyTable(Inconsistent);
      forall k | Counted(k) ensures CountWhere(t, ReceiptOfKind(k)) == 0 { EmptyTable(ReceiptOfKind(k)); }
    }
  }

  lemma TotalIsSize(b: seq<Routed>, api: Tallies)
    requires WellTagged(b)
    requires forall k | Counted(k) :: Tally(api, k) == CountIf(b, OfKind(k))
    ensures Total(api) == |b|
  {
    hide CountIf, WellTagged;
    KindsPartition(b);
  }

  lemma AllRows(t: Table)
    ensures CountWhere(t, AnyReceipt) == |t|
  {
    assert Select(t, AnyReceipt) == t.Keys;
  }

  lemma EmptyTable(p: Receipt -> bool)
    ensures CountWhere(map[], p) == 0
  {
    assert Select<Id, Receipt>(map[], p) == {};
  }

  /** A second batch without a reset is always BLOCKED: whatever it and the first one held,
      if the first was not empty the second cannot find clean ledgers. */
  lemma SecondRunBlocked(b: seq<Routed>, ids: seq<Id>, t: Table, redis: Tallies,
                         api': Tallies, redis': Tallies, t': Table,
                         b2: seq<Routed>, ids2: seq<Id>,
                         api'': Tallies, redis'': Tallies, t'': Table)
    requires WellTagged(b) && BatchLedgers(b, ids, t, redis, api', redis', t') && Fresh(t, ids) && |b| > 0
    requires WellTagged(b2) && BatchLedgers(b2, ids2, t', redis', api'', redis'', t'') && Fresh(t', ids2)
    ensures !Disposition(api'', redis'', t'').Confirmed()
  {
    hide CountIf, ReceiptsOf, InsertAll, Select, Inconsistent, Disposition;
    InsertAllConserves(t, ids, ReceiptsOf(b), AnyReceipt);
    ConfirmedIffClean(b2, ids2, t', redis', api'', redis'', t'');
  }

  // ---------------------------------------------------------------- the batch itself

  /** A sample row, tagged with its kind. */
  datatype Sample = Sample(kind: Kind, id: Id, receipt: Receipt)

  /** The samples of each kind, in request order. */
  datatype Groups = Groups(weighted: seq<Sample>, payload: seq<Sample>, override: seq<Sample>)

  function GroupOf(g: Groups, k: Kind): seq<Sample> {
    match k
    case Weighted => g.weighted
    case Payload => g.payload
    case Override => g.override
    case Other => []
  }

  predicate Grouped(g: Groups) {
    forall k, i | Counted(k) && 0 <= i < |GroupOf(g, k)| :: GroupOf(g, k)[i].kind == k
  }

  /** The mixed keys in Redis. */
  class MixedKeys {
    var counters: Tallies
    var summary: Tallies
    var policies: set<string>
    var samples: seq<Sample>

    constructor ()
      ensures counters == map[] && summary == map[] && policies == {} && samples == []
    {
      counters, summary, policies, samples := map[], map[], {}, [];
    }

    method MixedIncr(k: Kind)
      modifies this`counters
      ensures counters == old(counters)[k := Tally(old(counters), k) + 1]
    {
      counters := counters[k := Tally(counters, k) + 1];
    }
  }

  function BumpKind(m: Tallies, k: Kind): Tallies {
    m[k := Tally(m, k) + 1]
  }

  function AddSample(g: Groups, s: Sample): Groups {
    match s.kind
    case Weighted => g.(weighted := g.weighted + [s])
    case Payload => g.(payload := g.payload + [s])
    case Override => g.(override := g.override + [s])
    case Other => g
  }

  lemma BatchLedgersStep(b: seq<Routed>, ids: seq<Id>, t: Table, redis: Tallies,
                         api': Tallies, redis': Tallies, t': Table, r: Routed, id: Id)
    requires BatchLedgers(b, ids, t, redis, api', redis', t')
    ensures BatchLedgers(b + [r], ids + [id], t, redis, BumpKind(api', r.kind), BumpKind(redis', r.kind),
                         Insert(t', id, r.receipt))
  {
    hide CountIf, InsertAll, ReceiptsOf;
    ReceiptsSnoc(b, r);
    InsertAllSnoc(t, ids, ReceiptsOf(b), id, r.receipt);
    forall k | Counted(k)
      ensures CountIf(b + [r], OfKind(k)) == CountIf(b, OfKind(k)) + (if k == r.kind then 1 else 0)
    {
      CountSnoc(b, r, OfKind(k));
    }
  }

  lemma ReceiptsSnoc(b: seq<Routed>, r: Routed)
    ensures ReceiptsOf(b + [r]) == ReceiptsOf(b) + [r.receipt]
  {
    assert (b + [r])[..|b|] == b;
  }

  /** Persist and tally one routed request, and file its sample. */
  method Record(redis: MixedKeys, db: Postgres, r: Routed, id: Id, byKind: Tallies, grouped: Groups)
    returns (byKind': Tallies, grouped': Groups)
    requires Grouped(grouped)
    modifies redis`counters, db
    ensures db.receipts == Insert(old(db.receipts), id, r.receipt)
    ensures redis.counters == BumpKind(old(redis.counters), r.kind)
    ensures byKind' == BumpKind(byKind, r.kind)
    ensures grouped' == AddSample(grouped, Sample(r.kind, id, r.receipt)) && Grouped(grouped')
  {
    db.InsertReceipt(id, r.receipt);
    redis.MixedIncr(r.kind);
    byKind' := byKind[r.kind := Tally(byKind, r.kind) + 1];
    grouped' := AddSample(grouped, Sample(r.kind, id, r.receipt));
    AddSampleGrouped(grouped, Sample(r.kind, id, r.receipt));
  }

  lemma AddSampleGrouped(g: Groups, s: Sample)
    requires Grouped(g)
    ensures Grouped(AddSample(g, s))
  {
    var g' := AddSample(g, s);
    forall k, i | Counted(k) && 0 <= i < |GroupOf(g', k)| ensures GroupOf(g', k)[i].kind == k {
      if i < |GroupOf(g, k)| { assert GroupOf(g', k)[i] == GroupOf(g, k)[i]; }
    }
  }

  /** The samples of a batch, filed by kind in request order. */
  function GroupsOf(b: seq<Routed>, ids: seq<Id>): Groups
    requires |b| == |ids|
  {
    if |b| == 0 then Groups([], [], [])
    else AddSample(GroupsOf(b[..|b| - 1], ids[..|ids| - 1]),
                   Sample(b[|b| - 1].kind, ids[|ids| - 1], b[|b| - 1].receipt))
  }

  lemma GroupsSnoc(b: seq<Routed>, ids: seq<Id>, r: Routed, id: Id)
    requires |b| == |ids|
    ensures GroupsOf(b + [r], ids + [id]) == AddSample(GroupsOf(b, ids), Sample(r.kind, id, r.receipt))
  {
    assert (b + [r])[..|b|] == b && (ids + [id])[..|ids|] == ids;
  }

  /** Every request's row, in request order. */
  function SamplesOf(b: seq<Routed>, ids: seq<Id>): (rows: seq<Sample>)
    requires |b| == |ids|
    ensures |rows| == |b|
    ensures forall i | 0 <= i < |b| :: rows[i] == Sample(b[i].kind, ids[i], b[i].receipt)
  {
    if |b| == 0 then []
    else SamplesOf(b[..|b| - 1], ids[..|ids| - 1]) + [Sample(b[|b| - 1].kind, ids[|ids| - 1], b[|b| - 1].receipt)]
  }

  lemma AddSampleGroups(g: Groups, x: Sample, k: Kind)
    requires Counted(k)
    ensures GroupOf(AddSample(g, x), k) == GroupOf(g, k) + (if x.kind == k then [x] else [])
  {
  }

  lemma EmptyGroups(k: Kind)
    ensures GroupOf(Groups([], [], []), k) == Only([], k) == []
  {
  }

  /** A group is its kind's rows in request order. */
  lemma {:induction false} GroupsKeepOrder(b: seq<Routed>, ids: seq<Id>, k: Kind)
    requires |b| == |ids| && Counted(k)
    ensures GroupOf(GroupsOf(b, ids), k) == Only(SamplesOf(b, ids), k)
  {
    hide AddSample, Only, GroupOf;
    if |b| == 0 {
      EmptyGroups(k);
    } else {
      var n := |b| - 1;
      GroupsKeepOrder(b[..n], ids[..n], k);
      var x := Sample(b[n].kind, ids[n], b[n].receipt);
      AddSampleGroups(GroupsOf(b[..n], ids[..n]), x, k);
      OnlyConcat(SamplesOf(b[..n], ids[..n]), [x], k);
      OnlyOne(x, k);
    }
  }

  /** Run one mixed batch. `picks` is the weighted sequence as model names; `ids` are the
      request ids `uuid4` yields. */
  method RouteMixed(redis: MixedKeys, db: Postgres, t: Tables, picks: seq<string>, weighted: nat,
                    cases: seq<Case>, ids: seq<Id>)
    requires Complete(t) && |picks| > 0 && |ids| == weighted + |cases|
    modifies redis, db
    ensures BatchLedgers(BatchOf(t, picks, weighted, cases), ids, old(db.receipts), old(redis.counters),
                         redis.summary, redis.counters, db.receipts)
    ensures var g := GroupsOf(BatchOf(t, picks, weighted, cases), ids);
            Grouped(g) && redis.samples == Rounds(g, Longest(g))
    ensures redis.policies
            == (if weighted > 0 then {WEIGHTED_POLICY} else {}) + (if |cases| > 0 then {SMART_POLICY} else {})
  {
    hide PoliciesOf, GroupPolicies, Longest, BatchLedgers, RouteSmart, RouteWeightedAt, GroupsOf, Rounds, BumpKind,
      AddSample, InsertAll, BatchOf;
    var byKind: Tallies := map[];
    var grouped := Groups([], [], []);
    ghost var before, counted := db.receipts, redis.counters;
    BatchStart(t, picks, before, counted);
    for i := 0 to weighted
      invariant BatchLedgers(BatchOf(t, picks, i, []), ids[..i], before, counted, byKind, redis.counters,
                             db.receipts)
      invariant Grouped(grouped) && grouped == GroupsOf(BatchOf(t, picks, i, []), ids[..i])
    {
      var r := RouteWeightedAt(picks, i);
      BatchSnocWeighted(t, picks, i);
      BatchLedgersStep(BatchOf(t, picks, i, []), ids[..i], before, counted, byKind, redis.counters, db.receipts,
                       r, ids[i]);
      GroupsSnoc(BatchOf(t, picks, i, []), ids[..i], r, ids[i]);
      assert ids[..i + 1] == ids[..i] + [ids[i]];
      byKind, grouped := Record(redis, db, r, ids[i], byKind, grouped);
    }
    assert cases[..0] == [];
    for i := 0 to |cases|
      invariant BatchLedgers(BatchOf(t, picks, weighted, cases[..i]), ids[..weighted + i], before, counted, byKind,
                             redis.counters, db.receipts)
      invariant Grouped(grouped) && grouped == GroupsOf(BatchOf(t, picks, weighted, cases[..i]), ids[..weighted + i])
    {
      var r := RouteSmart(t, cases[i]);
      var n := weighted + i;
      BatchSnocSmart(t, picks, weighted, cases, i);
      BatchLedgersStep(BatchOf(t, picks, weighted, cases[..i]), ids[..n], before, counted, byKind, redis.counters,
                       db.receipts, r, ids[n]);
      GroupsSnoc(BatchOf(t, picks, weighted, cases[..i]), ids[..n], r, ids[n]);
      assert ids[..n + 1] == ids[..n] + [ids[n]];
      byKind, grouped := Record(redis, db, r, ids[n], byKind, grouped);
    }
    assert cases[..|cases|] == cases && ids[..weighted + |cases|] == ids;
    var samples := Interleave(grouped);
    SampledPolicies(grouped);
    BatchPolicies(t, picks, weighted, cases, ids);
    redis.summary := byKind;
    redis.policies := PoliciesOf(samples);
    redis.samples := samples;
  }

  lemma BatchStart(t: Tables, picks: seq<string>, before: Table, counted: Tallies)
    requires Complete(t) && |picks| > 0
    ensures BatchOf(t, picks, 0, []) == []
    ensures BatchLedgers([], [], before, counted, map[], counted, before)
    ensures GroupsOf([], []) == Groups([], [], [])
  {
  }

  lemma BatchSnocWeighted(t: Tables, picks: seq<string>, i: nat)
    requires Complete(t) && |picks| > 0
    ensures BatchOf(t, picks, i + 1, []) == BatchOf(t, picks, i, []) + [RouteWeightedAt(picks, i)]
  {
  }

  lemma BatchSnocSmart(t: Tables, picks: seq<string>, weighted: nat, cases: seq<Case>, i: nat)
    requires Complete(t) && |picks| > 0 && i < |cases|
    ensures BatchOf(t, picks, weighted, cases[..i + 1])
            == BatchOf(t, picks, weighted, cases[..i]) + [RouteSmart(t, cases[i])]
  {
    assert cases[..i + 1][..i] == cases[..i];
  }

  // ---------------------------------------------------------------- the interleaved sample

  function RoundOf(g: Groups, r: nat): seq<Sample> {
    (if r < |g.weighted| then [g.weighted[r]] else [])
    + (if r < |g.payload| then [g.payload[r]] else [])
    + (if r < |g.override| then [g.override[r]] else [])
  }

  /** The sample after r rounds. */
  function Rounds(g: Groups, r: nat): seq<Sample> {
    if r == 0 then [] else Rounds(g, r - 1) + RoundOf(g, r - 1)
  }

  function Longest(g: Groups): nat {
    var m := if |g.weighted| >= |g.payload| then |g.weighted| else |g.payload|;
    if m >= |g.override| then m else |g.override|
  }

  /** Take one of each kind per round while any group has one left. */
  method Interleave(g: Groups) returns (samples: seq<Sample>)
    ensures samples == Rounds(g, Longest(g))
  {
    samples := [];
    var idx := 0;
    while idx < |g.weighted| || idx < |g.payload| || idx < |g.override|
      invariant idx <= Longest(g) && samples == Rounds(g, idx)
      decreases Longest(g) - idx
    {
      ghost var before := samples;
      if idx < |g.weighted| { samples := samples + [g.weighted[idx]]; }
      if idx < |g.payload| { samples := samples + [g.payload[idx]]; }
      if idx < |g.override| { samples := samples + [g.override[idx]]; }
      assert samples == before + RoundOf(g, idx);
      idx := idx + 1;
    }
  }

  /** The rows of one kind, in order. */
  function Only(s: seq<Sample>, k: Kind): seq<Sample> {
    if |s| == 0 then []
    else Only(s[..|s| - 1], k) + (if s[|s| - 1].kind == k then [s[|s| - 1]] else [])
  }

  lemma {:induction false} OnlyConcat(a: seq<Sample>, b: seq<Sample>, k: Kind)
    ensures Only(a + b, k) == Only(a, k) + Only(b, k)
  {
    if |b| == 0 {
      assert a + b == a;
    } else {
      OnlyConcat(a, b[..|b| - 1], k);
      assert (a + b)[..|a + b| - 1] == a + b[..|b| - 1];
    }
  }

  lemma OnlyOne(x: Sample, k: Kind)
    ensures Only([x], k) == if x.kind == k then [x] else []
  {
    assert [x][..0] == [];
  }

  lemma OnlyOfRound(g: Groups, r: nat, k: Kind)
    requires Grouped(g) && Counted(k)
    ensures Only(RoundOf(g, r), k) == if r < |GroupOf(g, k)| then [GroupOf(g, k)[r]] else []
  {
    hide Only;
    var a := if r < |g.weighted| then [g.weighted[r]] else [];
    var b := if r < |g.payload| then [g.payload[r]] else [];
    var c := if r < |g.override| then [g.override[r]] else [];
    OnlyConcat(a + b, c, k);
    OnlyConcat(a, b, k);
    OnlyNone(k);
    if r < |g.weighted| { assert GroupOf(g, Weighted)[r].kind == Weighted; OnlyOne(g.weighted[r], k); }
    if r < |g.payload| { assert GroupOf(g, Payload)[r].kind == Payload; OnlyOne(g.payload[r], k); }
    if r < |g.override| { assert GroupOf(g, Override)[r].kind == Override; OnlyOne(g.override[r], k); }
  }

  lemma OnlyNone(k: Kind)
    ensures Only([], k) == []
  {
  }

  /** After r rounds each kind has contributed its first min(r, length) rows, in order. */
  lemma {:induction false} RoundsAreFair(g: Groups, r: nat, k: Kind)
    requires Grouped(g) && Counted(k)
    ensures Only(Rounds(g, r), k) == GroupOf(g, k)[..Min(r, |GroupOf(g, k)|)]
  {
    hide Only, RoundOf;
    if r == 0 {
      OnlyNone(k);
    } else {
      RoundsAreFair(g, r - 1, k);
      OnlyConcat(Rounds(g, r - 1), RoundOf(g, r - 1), k);
      OnlyOfRound(g, r - 1, k);
    }
  }

  /** The finished sample is an order-preserving merge: each kind's rows are exactly its
      group, and nothing else is in it. */
  lemma InterleaveIsMerge(g: Groups, k: Kind)
    requires Grouped(g)
    ensures Counted(k) ==> Only(Rounds(g, Longest(g)), k) == GroupOf(g, k)
    ensures |Rounds(g, Longest(g))| == |g.weighted| + |g.payload| + |g.override|
  {
    hide Only, Rounds;
    if Counted(k) { RoundsAreFair(g, Longest(g), k); }
    RoundsLength(g, Longest(g));
  }

  lemma {:induction false} RoundsLength(g: Groups, r: nat)
    ensures |Rounds(g, r)| == Min(r, |g.weighted|) + Min(r, |g.payload|) + Min(r, |g.override|)
  {
    if r == 0 {
    } else {
      RoundsLength(g, r - 1);
    }
  }

  /** Any sample of at least three rows shows all three kinds when there is one of each. */
  lemma ShortSampleShowsAll(g: Groups, limit: nat)
    requires Grouped(g) && |g.weighted| > 0 && |g.payload| > 0 && |g.override| > 0
    requires 3 <= limit <= |Rounds(g, Longest(g))|
    ensures var shown := Rounds(g, Longest(g))[..limit];
            shown[0].kind == Weighted && shown[1].kind == Payload && shown[2].kind == Override
  {
    hide Rounds;
    FirstRound(g, Longest(g));
    assert GroupOf(g, Weighted)[0].kind == Weighted;
    assert GroupOf(g, Payload)[0].kind == Payload;
    assert GroupOf(g, Override)[0].kind == Override;
  }

  lemma {:induction false} FirstRound(g: Groups, r: nat)
    requires r >= 1
    ensures RoundOf(g, 0) <= Rounds(g, r)
  {
    hide RoundOf;
    if r == 1 {
      assert Rounds(g, 0) + RoundOf(g, 0) == RoundOf(g, 0);
    } else {
      FirstRound(g, r - 1);
    }
  }

  // ---------------------------------------------------------------- the policies of a batch

  /** The policies named in the sample; the source lists them sorted. */
  function PoliciesOf(samples: seq<Sample>): set<string> {
    set x | x in samples :: x.receipt.policyName
  }

  /** The policies named in any of the groups. */
  function GroupPolicies(g: Groups): set<string> {
    PoliciesOf(g.weighted) + PoliciesOf(g.payload) + PoliciesOf(g.override)
  }

  lemma TakeNext<T>(s: seq<T>, r: nat, x: T)
    ensures x in s[..Min(r + 1, |s|)] <==> x in s[..Min(r, |s|)] || (r < |s| && x == s[r])
  {
    if r < |s| { assert s[..r + 1] == s[..r] + [s[r]]; }
  }

  lemma NothingTaken(g: Groups)
    ensures Min(0, |g.weighted|) == Min(0, |g.payload|) == Min(0, |g.override|) == 0
  {
  }

  lemma RoundMember(g: Groups, r: nat, x: Sample)
    ensures x in RoundOf(g, r)
            <==> (r < |g.weighted| && x == g.weighted[r]) || (r < |g.payload| && x == g.payload[r])
                 || (r < |g.override| && x == g.override[r])
  {
  }

  /** After r rounds the sample holds the first r rows of every group, and nothing else. */
  lemma {:induction false} RoundsMember(g: Groups, r: nat, x: Sample)
    ensures x in Rounds(g, r)
            <==> x in g.weighted[..Min(r, |g.weighted|)] || x in g.payload[..Min(r, |g.payload|)]
                 || x in g.override[..Min(r, |g.override|)]
  {
    hide Min, RoundOf;
    if r == 0 {
      NothingTaken(g);
    } else {
      RoundsMember(g, r - 1, x);
      RoundMember(g, r - 1, x);
      TakeNext(g.weighted, r - 1, x);
      TakeNext(g.payload, r - 1, x);
      TakeNext(g.override, r - 1, x);
    }
  }

  lemma SampledPolicies(g: Groups)
    ensures PoliciesOf(Rounds(g, Longest(g))) == GroupPolicies(g)
  {
    hide Rounds;
    forall x ensures x in Rounds(g, Longest(g)) <==> x in g.weighted || x in g.payload || x in g.override {
      RoundsMember(g, Longest(g), x);
    }
  }

  lemma PoliciesSnoc(s: seq<Sample>, x: Sample)
    ensures PoliciesOf(s + [x]) == PoliciesOf(s) + {x.receipt.policyName}
  {
  }

  lemma AddSamplePolicies(g: Groups, s: Sample)
    requires Counted(s.kind)
    ensures GroupPolicies(AddSample(g, s)) == GroupPolicies(g) + {s.receipt.policyName}
  {
    hide PoliciesOf;
    PoliciesSnoc(GroupOf(g, s.kind), s);
  }

  /** The policies listed are those of the requests that were in the batch. */
  lemma {:induction false} BatchPolicies(t: Tables, picks: seq<string>, weighted: nat, cases: seq<Case>, ids: seq<Id>)
    requires Complete(t) && |picks| > 0 && |ids| == weighted + |cases|
    ensures GroupPolicies(GroupsOf(BatchOf(t, picks, weighted, cases), ids))
            == (if weighted > 0 then {WEIGHTED_POLICY} else {}) + (if |cases| > 0 then {SMART_POLICY} else {})
    decreases |cases|, weighted
  {
    hide GroupPolicies, AddSample, GroupsOf;
    if |cases| == 0 && weighted == 0 {
      NoPolicies();
    } else {
      var n := |ids| - 1;
      var b := if |cases| > 0 then BatchOf(t, picks, weighted, cases[..|cases| - 1])
               else BatchOf(t, picks, weighted - 1, []);
      var r := if |cases| > 0 then RouteSmart(t, cases[|cases| - 1]) else RouteWeightedAt(picks, weighted - 1);
      assert ids == ids[..n] + [ids[n]];
      GroupsSnoc(b, ids[..n], r, ids[n]);
      AddSamplePolicies(GroupsOf(b, ids[..n]), Sample(r.kind, ids[n], r.receipt));
      if |cases| > 0 {
        BatchPolicies(t, picks, weighted, cases[..|cases| - 1], ids[..n]);
      } else {
        assert cases == [];
        BatchPolicies(t, picks, weighted - 1, [], ids[..n]);
      }
    }
  }

  lemma NoPolicies()
    ensures GroupPolicies(GroupsOf([], [])) == {}
  {
  }
}
