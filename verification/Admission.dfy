/** Admission control: the atomic decision script over the rate-limit counter and the queue,
    and what holds of every sequence of submits and resets. */
module Admission {
  import opened Arithmetic
  import opened Ledger

  /** One row of the limits table. */
  datatype Limit = Limit(provider: string, tier: string, requestClass: string, rate: int, capacity: int)

  type Limits = map<string, Limit>

  /** provider:tier:class */
  function LimiterKey(cfg: Limits, model: string): string
    requires model in cfg
  {
    cfg[model].provider + ":" + cfg[model].tier + ":" + cfg[model].requestClass
  }

  /** The Redis keys the script reads and writes: the admitted counter per model and the
      queue list per limiter key. */
  datatype Store = Store(admitted: map<string, int>, queues: map<string, seq<Id>>)

  const EMPTY_STORE := Store(map[], map[])

  function Admitted(s: Store, model: string): int {
    if model in s.admitted then s.admitted[model] else 0
  }

  function Queue(s: Store, key: string): seq<Id> {
    if key in s.queues then s.queues[key] else []
  }

  /** The script's reply: the decision and the state it was judged against. */
  datatype Decision = Decision(disposition: Disposition, admitted: int, depth: nat)

  function Decide(cfg: Limits, s: Store, model: string): Decision
    requires model in cfg
  {
    var admitted, queue := Admitted(s, model), Queue(s, LimiterKey(cfg, model));
    if admitted < cfg[model].rate then Decision(Accepted, admitted + 1, |queue|)
    else if |queue| < cfg[model].capacity then Decision(Delayed, admitted, |queue| + 1)
    else Decision(Rejected, admitted, |queue|)
  }

  /** The script's writes. */
  function Admit(cfg: Limits, s: Store, model: string, id: Id): Store
    requires model in cfg
  {
    var key := LimiterKey(cfg, model);
    match Decide(cfg, s, model).disposition
    case Accepted => s.(admitted := s.admitted[model := Admitted(s, model) + 1])
    case Delayed => s.(queues := s.queues[key := Queue(s, key) + [id]])
    case Rejected => s
  }

  /** One DEL over every configured model's counter and queue. */
  function ResetStore(cfg: Limits, s: Store): Store {
    Store(s.admitted - cfg.Keys, s.queues - (set m | m in cfg :: LimiterKey(cfg, m)))
  }

  /** Atomic operations on the store. A submit to an unconfigured model is refused before
      the script runs. */
  datatype Op = Submit(model: string, id: Id) | Reset

  function Apply(cfg: Limits, s: Store, op: Op): Store {
    match op
    case Submit(model, id) => if model in cfg then Admit(cfg, s, model, id) else s
    case Reset => ResetStore(cfg, s)
  }

  function Run(cfg: Limits, ops: seq<Op>): Store {
    if |ops| == 0 then EMPTY_STORE
    else Apply(cfg, Run(cfg, ops[..|ops| - 1]), ops[|ops| - 1])
  }

  /** The ids submitted to a model since the last reset, in order. */
  function Submitted(ops: seq<Op>, model: string): seq<Id> {
    if |ops| == 0 then []
    else
      var prev := Submitted(ops[..|ops| - 1], model);
      match ops[|ops| - 1]
      case Submit(m, id) => if m == model then prev + [id] else prev
      case Reset => []
  }

  /** The operations since the last reset. */
  function SinceReset(ops: seq<Op>): seq<Op> {
    if |ops| == 0 then []
    else
      match ops[|ops| - 1]
      case Submit(_, _) => SinceReset(ops[..|ops| - 1]) + [ops[|ops| - 1]]
      case Reset => []
  }

  lemma RunAppend(cfg: Limits, ops: seq<Op>, op: Op)
    ensures Run(cfg, ops + [op]) == Apply(cfg, Run(cfg, ops), op)
  {
    assert (ops + [op])[..|ops|] == ops;
  }

  lemma SubmittedAppend(ops: seq<Op>, op: Op, model: string)
    ensures Submitted(ops + [op], model)
            == if op == Reset then []
               else if op.model == model then Submitted(ops, model) + [op.id]
               else Submitted(ops, model)
  {
    assert (ops + [op])[..|ops|] == ops;
  }

  // ---------------------------------------------------------------- the closed form

  function AtLeastZero(x: int): nat { if x < 0 then 0 else x }

  /** Admits and queue slots a model really has. */
  function Room(l: Limit): nat { AtLeastZero(l.rate) + AtLeastZero(l.capacity) }

  /** The fate of the k-th submit (from 0) to a model after a reset. */
  function FateOf(l: Limit, k: nat): Disposition {
    if k < AtLeastZero(l.rate) then Accepted
    else if k < Room(l) then Delayed
    else Rejected
  }

  /** The k-th reply in full: its disposition, and the counter and queue depth it reports. */
  function DecisionOf(l: Limit, k: nat): Decision {
    Decision(FateOf(l, k), Min(k + 1, AtLeastZero(l.rate)),
             AtLeastZero(Min(k + 1, Room(l)) - AtLeastZero(l.rate)))
  }

  /** No other model submitted to since the last reset shares this model's limiter key. */
  predicate Isolated(cfg: Limits, ops: seq<Op>, model: string)
    requires model in cfg
  {
    forall op | op in SinceReset(ops) && op.Submit? && op.model in cfg && op.model != model ::
      LimiterKey(cfg, op.model) != LimiterKey(cfg, model)
  }

  /** A reset isolates every model, and its own submits keep it isolated. */
  lemma IsolatedAppend(cfg: Limits, ops: seq<Op>, op: Op, model: string)
    requires model in cfg
    ensures op == Reset ==> Isolated(cfg, ops + [op], model)
    ensures op.Submit? ==> (Isolated(cfg, ops + [op], model)
                            <==> Isolated(cfg, ops, model)
                                 && (op.model in cfg && op.model != model
                                     ==> LimiterKey(cfg, op.model) != LimiterKey(cfg, model)))
  {
    hide LimiterKey;
    assert (ops + [op])[..|ops|] == ops;
    if op.Submit? {
      assert SinceReset(ops + [op]) == SinceReset(ops) + [op];
      assert forall o :: o in SinceReset(ops) + [op] <==> o in SinceReset(ops) || o == op;
    }
  }

  /** The store a model sees after any run is decided by the ids submitted to it since the
      last reset: the counter is capped at the rate, and the queue holds exactly the ids that
      came between the rate and the room, in order. */
  lemma {:induction false} StoreClosedForm(cfg: Limits, ops: seq<Op>, model: string)
    requires model in cfg && Isolated(cfg, ops, model)
    ensures var ids, rate, room := Submitted(ops, model), AtLeastZero(cfg[model].rate), Room(cfg[model]);
            && Admitted(Run(cfg, ops), model) == Min(|ids|, rate)
            && Queue(Run(cfg, ops), LimiterKey(cfg, model)) == ids[Min(|ids|, rate)..Min(|ids|, room)]
  {
    hide LimiterKey, Isolated;
    if |ops| == 0 {
    } else {
      var init, last := ops[..|ops| - 1], ops[|ops| - 1];
      assert ops == init + [last];
      IsolatedAppend(cfg, init, last, model);
      match last
      case Submit(m, id) =>
        StoreClosedForm(cfg, init, model);
        if m == model {
          QueueGrows(Submitted(init, model), id, AtLeastZero(cfg[model].rate), Room(cfg[model]));
        } else if m in cfg {
          OtherModelsUntouched(cfg, Run(cfg, init), m, id, model);
        }
      case Reset =>
        ResetEmpties(cfg, Run(cfg, init), model);
    }
  }

  lemma ResetEmpties(cfg: Limits, s: Store, model: string)
    requires model in cfg
    ensures Admitted(ResetStore(cfg, s), model) == 0
    ensures Queue(ResetStore(cfg, s), LimiterKey(cfg, model)) == []
  {
    hide LimiterKey;
  }

  lemma QueueGrows(ids: seq<Id>, id: Id, rate: nat, room: nat)
    requires rate <= room
    ensures var ids' := ids + [id];
            var before := ids[Min(|ids|, rate)..Min(|ids|, room)];
            ids'[Min(|ids'|, rate)..Min(|ids'|, room)]
            == if rate <= |ids| < room then before + [id] else before
  {
  }

  /** Every decision, exactly: its disposition and the numbers it reports depend only on how
      many submits the model has had since the last reset. So between resets a model's
      decisions are accepted, then delayed, then rejected. */
  lemma DecisionClosedForm(cfg: Limits, ops: seq<Op>, model: string)
    requires model in cfg && Isolated(cfg, ops, model)
    ensures Decide(cfg, Run(cfg, ops), model) == DecisionOf(cfg[model], |Submitted(ops, model)|)
  {
    hide LimiterKey, Run;
    StoreClosedForm(cfg, ops, model);
  }

  /** Limits and capacities are never exceeded, the queue holds submitted ids only, and a
      waiting queue means the rate is spent. */
  lemma WithinLimits(cfg: Limits, ops: seq<Op>, model: string)
    requires model in cfg && Isolated(cfg, ops, model)
    ensures var s := Run(cfg, ops);
            var queue := Queue(s, LimiterKey(cfg, model));
            && 0 <= Admitted(s, model) <= AtLeastZero(cfg[model].rate)
            && |queue| <= AtLeastZero(cfg[model].capacity)
            && (|queue| > 0 ==> Admitted(s, model) == AtLeastZero(cfg[model].rate))
  {
    hide LimiterKey, Run;
    StoreClosedForm(cfg, ops, model);
  }

  /** With distinct ids the queue has no duplicates. */
  lemma QueueHasNoDuplicates(cfg: Limits, ops: seq<Op>, model: string)
    requires model in cfg && Isolated(cfg, ops, model)
    requires forall i, j | 0 <= i < j < |Submitted(ops, model)| :: Submitted(ops, model)[i] != Submitted(ops, model)[j]
    ensures var queue := Queue(Run(cfg, ops), LimiterKey(cfg, model));
            forall i, j | 0 <= i < j < |queue| :: queue[i] != queue[j]
  {
    hide LimiterKey, Run, Submitted;
    StoreClosedForm(cfg, ops, model);
  }

  // ---------------------------------------------------------------- keys that collide

  /** The three parts of a limiter key do not contain its separator. */
  predicate PlainKey(l: Limit) {
    ':' !in l.provider && ':' !in l.tier && ':' !in l.requestClass
  }

  lemma FirstColon(a: string, rest: string)
    requires ':' !in a
    ensures (a + ":" + rest)[|a|] == ':' && forall i | 0 <= i < |a| :: (a + ":" + rest)[i] != ':'
  {
  }

  /** Where the first separator is, what comes before it and after it is determined. */
  lemma SplitAtColon(a: string, b: string, restA: string, restB: string)
    requires ':' !in a && ':' !in b && a + ":" + restA == b + ":" + restB
    ensures a == b && restA == restB
  {
    var joined := a + ":" + restA;
    FirstColon(a, restA);
    FirstColon(b, restB);
    assert joined[..|a|] == a && joined[..|b|] == b;
    assert joined[|a| + 1..] == restA && joined[|b| + 1..] == restB;
  }

  /** Two models share a limiter key exactly when they share provider, tier and class. */
  lemma SameKeyIff(cfg: Limits, a: string, b: string)
    requires a in cfg && b in cfg && PlainKey(cfg[a]) && PlainKey(cfg[b])
    ensures LimiterKey(cfg, a) == LimiterKey(cfg, b)
            <==> cfg[a].provider == cfg[b].provider && cfg[a].tier == cfg[b].tier
                 && cfg[a].requestClass == cfg[b].requestClass
  {
    var x, y := cfg[a], cfg[b];
    if LimiterKey(cfg, a) == LimiterKey(cfg, b) {
      assert LimiterKey(cfg, a) == x.provider + ":" + (x.tier + ":" + x.requestClass);
      assert LimiterKey(cfg, b) == y.provider + ":" + (y.tier + ":" + y.requestClass);
      SplitAtColon(x.provider, y.provider, x.tier + ":" + x.requestClass, y.tier + ":" + y.requestClass);
      SplitAtColon(x.tier, y.tier, x.requestClass, y.requestClass);
    }
  }

  /** A reset leaves the keys of models that are not configured. */
  lemma ResetLeavesOthers(cfg: Limits, s: Store, model: string, key: string)
    requires forall m | m in cfg :: LimiterKey(cfg, m) != key
    ensures model !in cfg ==> Admitted(ResetStore(cfg, s), model) == Admitted(s, model)
    ensures Queue(ResetStore(cfg, s), key) == Queue(s, key)
  {
    hide LimiterKey;
  }

  /** Two models behind one limiter key, where one can queue and the other can still admit. */
  predicate SharesQueue(cfg: Limits, a: string, b: string) {
    && a in cfg && b in cfg && a != b
    && LimiterKey(cfg, a) == LimiterKey(cfg, b)
    && cfg[a].rate > 0 && cfg[b].capacity > 0
  }

  predicate NoQueueJump(cfg: Limits, s: Store) {
    forall m | m in cfg ::
      Queue(s, LimiterKey(cfg, m)) != [] ==> Admitted(s, m) >= cfg[m].rate
  }

  lemma {:induction false} NoQueueJumpKept(cfg: Limits, ops: seq<Op>)
    requires forall a, b :: !SharesQueue(cfg, a, b)
    ensures NoQueueJump(cfg, Run(cfg, ops))
    ensures forall m :: Admitted(Run(cfg, ops), m) >= 0
  {
    hide LimiterKey, Apply;
    if |ops| == 0 {
    } else {
      var init, last := ops[..|ops| - 1], ops[|ops| - 1];
      NoQueueJumpKept(cfg, init);
      NoQueueJumpStep(cfg, Run(cfg, init), last);
    }
  }

  lemma NoQueueJumpStep(cfg: Limits, s: Store, op: Op)
    requires forall a, b :: !SharesQueue(cfg, a, b)
    requires NoQueueJump(cfg, s) && forall m :: Admitted(s, m) >= 0
    ensures NoQueueJump(cfg, Apply(cfg, s, op)) && forall m :: Admitted(Apply(cfg, s, op), m) >= 0
  {
    hide LimiterKey;
    var s' := Apply(cfg, s, op);
    forall m ensures Admitted(s', m) >= 0 { assert Admitted(s, m) >= 0; }
    forall m | m in cfg && Queue(s', LimiterKey(cfg, m)) != []
      ensures Admitted(s', m) >= cfg[m].rate
    {
      assert Admitted(s, m) >= 0;
      match op
      case Submit(model, id) =>
        if model in cfg && m != model && LimiterKey(cfg, m) == LimiterKey(cfg, model) {
          assert !SharesQueue(cfg, m, model);
        }
      case Reset =>
    }
  }

  /** The false-queue-jump promise, `an accepted request observes queue depth 0`: it holds in
      every run with resets at any point exactly when no two models share a queue this way. */
  lemma AcceptedSeesEmptyQueueIff(cfg: Limits)
    ensures (forall ops: seq<Op>, m: string :: m in cfg ==> AcceptedAtDepthZero(cfg, Run(cfg, ops), m))
            <==> forall a, b :: !SharesQueue(cfg, a, b)
  {
    hide LimiterKey, Run;
    if forall a, b :: !SharesQueue(cfg, a, b) {
      forall ops: seq<Op>, m: string | m in cfg ensures AcceptedAtDepthZero(cfg, Run(cfg, ops), m) {
        NoQueueJumpKept(cfg, ops);
      }
    } else {
      var a, b :| SharesQueue(cfg, a, b);
      QueueJumpRun(cfg, a, b);
      assert !AcceptedAtDepthZero(cfg, Run(cfg, Repeat(b, AtLeastZero(cfg[b].rate) + 1)), a);
    }
  }

  predicate AcceptedAtDepthZero(cfg: Limits, s: Store, m: string)
    requires m in cfg
  {
    var d := Decide(cfg, s, m);
    d.disposition == Accepted ==> d.depth == 0
  }

  /** One submit too many to b puts an id in the queue that a's next accepted request sees. */
  lemma QueueJumpRun(cfg: Limits, a: string, b: string)
    requires SharesQueue(cfg, a, b)
    ensures var ops := Repeat(b, AtLeastZero(cfg[b].rate) + 1);
            !AcceptedAtDepthZero(cfg, Run(cfg, ops), a)
  {
    hide LimiterKey, Run;
    var ops := Repeat(b, AtLeastZero(cfg[b].rate) + 1);
    RepeatOnly(cfg, b, AtLeastZero(cfg[b].rate) + 1);
    StoreClosedForm(cfg, ops, b);
    UntouchedCounter(cfg, ops, a);
  }

  function Repeat(model: string, n: nat): (ops: seq<Op>)
    ensures |ops| == n && forall i | 0 <= i < n :: ops[i] == Submit(model, "req")
  {
    if n == 0 then [] else Repeat(model, n - 1) + [Submit(model, "req")]
  }

  /** They are all submitted, and to nobody else. */
  lemma {:induction false} RepeatOnly(cfg: Limits, model: string, n: nat)
    requires model in cfg
    ensures |Submitted(Repeat(model, n), model)| == n
    ensures Isolated(cfg, Repeat(model, n), model)
  {
    hide Submitted, Isolated, LimiterKey;
    if n == 0 {
      NothingSubmitted(cfg, model);
    } else {
      RepeatOnly(cfg, model, n - 1);
      SubmittedAppend(Repeat(model, n - 1), Submit(model, "req"), model);
      IsolatedAppend(cfg, Repeat(model, n - 1), Submit(model, "req"), model);
    }
  }

  lemma NothingSubmitted(cfg: Limits, model: string)
    requires model in cfg
    ensures Submitted([], model) == [] && Isolated(cfg, [], model)
  {
  }

  /** A model nobody submits to has admitted nothing. */
  lemma {:induction false} UntouchedCounter(cfg: Limits, ops: seq<Op>, model: string)
    requires forall i | 0 <= i < |ops| :: ops[i] != Reset && ops[i].model != model
    ensures Admitted(Run(cfg, ops), model) == 0
  {
    hide LimiterKey;
    if |ops| == 0 {
    } else {
      UntouchedCounter(cfg, ops[..|ops| - 1], model);
    }
  }

  /** Submits to one model leave another's counter and queue exactly as they were, provided
      their keys differ. */
  lemma OtherModelsUntouched(cfg: Limits, s: Store, model: string, id: Id, other: string)
    requires model in cfg && other in cfg && other != model
    requires LimiterKey(cfg, model) != LimiterKey(cfg, other)
    ensures var s' := Admit(cfg, s, model, id);
            && Admitted(s', other) == Admitted(s, other)
            && Queue(s', LimiterKey(cfg, other)) == Queue(s, LimiterKey(cfg, other))
            && Decide(cfg, s', other) == Decide(cfg, s, other)
  {
    hide LimiterKey;
  }

  // ---------------------------------------------------------------- the decision matrix

  datatype Counts = Counts(accepted: int, delayed: int, rejected: int)

  /** One row of the projected matrix: the closed form, for whatever burst size is asked. */
  function MatrixRow(l: Limit, count: int): Counts {
    var accepted := Min(count, l.rate);
    var delayed := Min(count - accepted, l.capacity);
    var delayed' := if delayed < 0 then 0 else delayed;
    var rejected := count - accepted - delayed';
    Counts(accepted, delayed', if rejected < 0 then 0 else rejected)
  }

  function Bump(c: Counts, d: Disposition): Counts {
    match d
    case Accepted => c.(accepted := c.accepted + 1)
    case Delayed => c.(delayed := c.delayed + 1)
    case Rejected => c.(rejected := c.rejected + 1)
  }

  /** What a burst of n requests after a reset really gets, request by request. */
  function BurstCounts(l: Limit, n: nat): Counts {
    if n == 0 then Counts(0, 0, 0) else Bump(BurstCounts(l, n - 1), FateOf(l, n - 1))
  }

  lemma {:induction false} BurstClosedForm(l: Limit, n: nat)
    ensures var rate, room := AtLeastZero(l.rate), Room(l);
            BurstCounts(l, n) == Counts(Min(n, rate), Min(n, room) - Min(n, rate), n - Min(n, room))
  {
    if n == 0 {
    } else {
      BurstClosedForm(l, n - 1);
    }
  }

  /** The projection equals the burst exactly for non-negative burst sizes and rates. The
      endpoint takes any integer: a negative one is projected to negative accepts. */
  lemma MatrixIsBurstIff(l: Limit, count: int)
    ensures MatrixRow(l, count) == BurstCounts(l, AtLeastZero(count)) <==> 0 <= count && 0 <= l.rate
  {
    hide BurstCounts;
    BurstClosedForm(l, AtLeastZero(count));
  }

  lemma NegativeBurstDiffers()
    ensures var l := Limit("balanced-ai", "balanced", "interactive", 6, 10);
            MatrixRow(l, -1) == Counts(-1, 0, 0) && BurstCounts(l, AtLeastZero(-1)) == Counts(0, 0, 0)
  {
  }

  /** Whatever integer is asked for, the projected row adds up to it, admits up to the rate,
      queues no more than the capacity, and rejects only once the queue is full. */
  lemma MatrixRowPartitions(l: Limit, count: int)
    ensures var row := MatrixRow(l, count);
            && row.accepted + row.delayed + row.rejected == count
            && row.accepted == Min(count, l.rate)
            && 0 <= row.delayed <= AtLeastZero(l.capacity) && 0 <= row.rejected
            && (row.rejected > 0 ==> row.delayed == AtLeastZero(l.capacity))
  {
  }

  // ---------------------------------------------------------------- the configured table

  const LIMITS: Limits := map[
    "econo-mini" := Limit("econo-ai", "low_cost", "batch", 10, 20),
    "balanced-std" := Limit("balanced-ai", "balanced", "interactive", 6, 10),
    "premium-max" := Limit("premium-ai", "premium", "premium", 3, 4)]

  /** The configured limiter keys are distinct, so all of the above applies to every run. */
  lemma ConfiguredIsolated(ops: seq<Op>, model: string)
    requires model in LIMITS
    ensures Isolated(LIMITS, ops, model)
    ensures forall a, b :: !SharesQueue(LIMITS, a, b)
  {
    assert LimiterKey(LIMITS, "econo-mini")[0] == 'e';
    assert LimiterKey(LIMITS, "balanced-std")[0] == 'b';
    assert LimiterKey(LIMITS, "premium-max")[0] == 'p';
    forall a, b | a in LIMITS && b in LIMITS && a != b ensures LimiterKey(LIMITS, a)[0] != LimiterKey(LIMITS, b)[0] { }
  }
  /** The keys as the limits table spells them. */
  lemma EconoKey()
    ensures LimiterKey(LIMITS, "econo-mini") == "econo-ai:low_cost:batch"
  {
    assert "econo-ai" + ":" + "low_cost" + ":" + "batch" == "econo-ai:low_cost:batch";
  }

  lemma BalancedKey()
    ensures LimiterKey(LIMITS, "balanced-std") == "balanced-ai:balanced:interactive"
  {
    assert "balanced-ai" + ":" + "balanced" + ":" + "interactive" == "balanced-ai:balanced:interactive";
  }

  lemma PremiumKey()
    ensures LimiterKey(LIMITS, "premium-max") == "premium-ai:premium:premium"
  {
    assert "premium-ai" + ":" + "premium" + ":" + "premium" == "premium-ai:premium:premium";
  }

  /** The rows a burst of twenty gets. */
  lemma ConfiguredRows()
    ensures MatrixRow(LIMITS["econo-mini"], 20) == Counts(10, 10, 0)
    ensures MatrixRow(LIMITS["balanced-std"], 20) == Counts(6, 10, 4)
    ensures MatrixRow(LIMITS["premium-max"], 20) == Counts(3, 4, 13)
  {
  }
}
