/** Concurrent submits. Each client is one `submit_one` call under its own fresh request id:
    it decides in one atomic script, then inserts its receipt, then bumps the tally, then
    appends its log entry, as four separate steps. Any number of clients interleave in any
    order. A reset is two steps of its own, the Redis keys and the receipt rows, and either
    may fall anywhere. */
module AdmissionConcurrency {
  import opened Arithmetic
  import opened Counting
  import opened Ledger
  import opened Admission
  import opened AdmissionService

  datatype Phase =
    | Waiting
    | Decided(decision: Decision)
    | Persisted(decision: Decision)
    | Tallied(decision: Decision)
    | Logged(decision: Decision)

  datatype Client = Client(model: string, phase: Phase)

  /** How many of its four steps a client has taken. */
  function Progress(p: Phase): nat {
    match p
    case Waiting => 0
    case Decided(_) => 1
    case Persisted(_) => 2
    case Tallied(_) => 3
    case Logged(_) => 4
  }

  /** Shared stores, clients by request id, and the atomic operations so far in order. */
  datatype System = System(
    store: Store, receipts: Table, tally: Counts, logs: seq<Event>,
    clients: map<Id, Client>, history: seq<Op>)

  /** A client's next step, the reset of the Redis keys, and the two ways receipts are deleted:
      the spike removes those of the admission policy, the admin reset all of them. */
  datatype Move = Advance(id: Id) | ResetKeys | ClearReceipts | TruncateReceipts

  function AdvanceClient(cfg: Limits, y: System, id: Id): System
    requires id in y.clients && y.clients[id].model in cfg
  {
    var c := y.clients[id];
    match c.phase
    case Waiting =>
      y.(store := Admit(cfg, y.store, c.model, id),
         clients := y.clients[id := c.(phase := Decided(Decide(cfg, y.store, c.model)))],
         history := y.history + [Submit(c.model, id)])
    case Decided(d) =>
      y.(receipts := Insert(y.receipts, id, ReceiptFor(c.model, d.disposition)),
         clients := y.clients[id := c.(phase := Persisted(d))])
    case Persisted(d) =>
      y.(tally := Bump(y.tally, d.disposition),
         clients := y.clients[id := c.(phase := Tallied(d))])
    case Tallied(d) =>
      y.(logs := y.logs + [Event(id, c.model, LimiterKey(cfg, c.model), d)],
         clients := y.clients[id := c.(phase := Logged(d))])
    case Logged(_) => y
  }

  /** One atomic step. A client that does not exist or has finished takes none. */
  function Step(cfg: Limits, y: System, move: Move): System
    requires AllConfigured(cfg, y)
  {
    match move
    case Advance(id) => if id in y.clients then AdvanceClient(cfg, y, id) else y
    case ResetKeys =>
      y.(store := ResetStore(cfg, y.store), tally := Counts(0, 0, 0), logs := [],
         history := y.history + [Reset])
    case ClearReceipts => y.(receipts := DeletePolicy(y.receipts, ADMISSION_POLICY))
    case TruncateReceipts => y.(receipts := map[])
  }

  /** The endpoint refuses unconfigured models before a client is created. */
  predicate AllConfigured(cfg: Limits, y: System) {
    forall id | id in y.clients :: y.clients[id].model in cfg
  }

  /** Every interleaving, as the sequence of moves taken. */
  function Exec(cfg: Limits, y: System, schedule: seq<Move>): (y': System)
    requires AllConfigured(cfg, y)
    ensures AllConfigured(cfg, y')
  {
    if |schedule| == 0 then y
    else Step(cfg, Exec(cfg, y, schedule[..|schedule| - 1]), schedule[|schedule| - 1])
  }

  /** A start right after a reset: empty keys, no admission receipts, nobody decided, and
      request ids that no stored receipt uses. */
  predicate Start(cfg: Limits, y: System) {
    && AllConfigured(cfg, y)
    && y.store == EMPTY_STORE && y.tally == Counts(0, 0, 0) && y.logs == [] && y.history == []
    && (forall id | id in y.clients :: y.clients[id].phase == Waiting && id !in y.receipts)
    && forall id | id in y.receipts :: y.receipts[id].disposition == None
  }

  // ---------------------------------------------------------------- linearisation

  /** Whatever the interleaving and the resets, the shared counter and queues are those of
      the decisions run one after another: concurrency adds no behaviour. */
  lemma {:induction false} StoreIsSequential(cfg: Limits, y: System, schedule: seq<Move>)
    requires Start(cfg, y)
    ensures var y' := Exec(cfg, y, schedule);
            y'.store == Admission.Run(cfg, y'.history)
  {
    hide Step, Run;
    if |schedule| == 0 {
      NothingRun(cfg);
    } else {
      var init, last := schedule[..|schedule| - 1], schedule[|schedule| - 1];
      StoreIsSequential(cfg, y, init);
      StepIsSequential(cfg, Exec(cfg, y, init), last);
    }
  }

  lemma NothingRun(cfg: Limits)
    ensures Admission.Run(cfg, []) == EMPTY_STORE
  {
  }

  lemma StepIsSequential(cfg: Limits, y: System, move: Move)
    requires AllConfigured(cfg, y) && y.store == Admission.Run(cfg, y.history)
    ensures Step(cfg, y, move).store == Admission.Run(cfg, Step(cfg, y, move).history)
  {
    hide LimiterKey, Admit, Decide, ResetStore, ReceiptFor, Run;
    match move
    case Advance(id) =>
      if id in y.clients { RunAppend(cfg, y.history, Submit(y.clients[id].model, id)); }
    case ResetKeys =>
      RunAppend(cfg, y.history, Reset);
    case ClearReceipts =>
    case TruncateReceipts =>
  }

  /** So with resets at any point, limits hold in every state, and whoever is accepted next
      observes an empty queue. */
  lemma ConcurrentWithinLimits(cfg: Limits, y: System, schedule: seq<Move>, model: string)
    requires Start(cfg, y) && OwnKey(cfg, model)
    ensures var s := Exec(cfg, y, schedule).store;
            && 0 <= Admitted(s, model) <= AtLeastZero(cfg[model].rate)
            && |Queue(s, LimiterKey(cfg, model))| <= AtLeastZero(cfg[model].capacity)
            && (Queue(s, LimiterKey(cfg, model)) != [] ==> Admitted(s, model) == AtLeastZero(cfg[model].rate))
            && (Decide(cfg, s, model).disposition == Accepted ==> Decide(cfg, s, model).depth == 0)
  {
    hide LimiterKey, Exec;
    StoreIsSequential(cfg, y, schedule);
    WithinLimits(cfg, Exec(cfg, y, schedule).history, model);
  }

  lemma ExecSnoc(cfg: Limits, y: System, schedule: seq<Move>, move: Move)
    requires AllConfigured(cfg, y)
    ensures Exec(cfg, y, schedule + [move]) == Step(cfg, Exec(cfg, y, schedule), move)
    ensures Exec(cfg, y, []) == y
  {
    assert (schedule + [move])[..|schedule|] == schedule;
  }

  lemma {:induction false} SameClients(cfg: Limits, y: System, schedule: seq<Move>)
    requires AllConfigured(cfg, y)
    ensures Exec(cfg, y, schedule).clients.Keys == y.clients.Keys
  {
    hide LimiterKey, Admit, Decide, ReceiptFor;
    if |schedule| == 0 {
    } else {
      SameClients(cfg, y, schedule[..|schedule| - 1]);
    }
  }

  // ---------------------------------------------------------------- turns and erasures

  /** How often the schedule lets a client move. */
  function Turns(schedule: seq<Move>, id: Id): nat {
    CountIf(schedule, TurnOf(id))
  }

  function TurnOf(id: Id): Move -> bool {
    (m: Move) => m == Advance(id)
  }

  /** What a reset step takes away. */
  datatype Erasure = OfKeys | OfReceipts

  predicate Erases(m: Move, what: Erasure) {
    match m
    case Advance(_) => false
    case ResetKeys => what == OfKeys
    case ClearReceipts => what == OfReceipts
    case TruncateReceipts => what == OfReceipts
  }

  /** Such an erasure comes when the client has had `steps` turns or more. */
  predicate ErasedAfter(schedule: seq<Move>, id: Id, what: Erasure, steps: nat) {
    exists n | 0 <= n < |schedule| :: Erases(schedule[n], what) && Turns(schedule[..n], id) >= steps
  }

  /** It comes that late for one of the clients. */
  predicate LateErasure(ids: set<Id>, schedule: seq<Move>, what: Erasure, steps: nat) {
    exists id | id in ids :: ErasedAfter(schedule, id, what, steps)
  }

  /** A step moves the client it names, and nobody else, one step on. */
  lemma StepProgress(cfg: Limits, y: System, move: Move, id: Id)
    requires AllConfigured(cfg, y) && id in y.clients
    ensures var y' := Step(cfg, y, move);
            && id in y'.clients && y'.clients[id].model == y.clients[id].model
            && Progress(y'.clients[id].phase)
               == if move == Advance(id) then Min(Progress(y.clients[id].phase) + 1, 4)
                  else Progress(y.clients[id].phase)
  {
    hide LimiterKey, Admit, Decide, ReceiptFor, ResetStore;
  }

  /** A client's progress is its number of turns, up to the four it needs. */
  lemma {:induction false} ProgressIsTurns(cfg: Limits, y: System, schedule: seq<Move>, id: Id)
    requires Start(cfg, y) && id in y.clients
    ensures var y' := Exec(cfg, y, schedule);
            && id in y'.clients && y'.clients[id].model == y.clients[id].model
            && Progress(y'.clients[id].phase) == Min(Turns(schedule, id), 4)
  {
    hide Step;
    if |schedule| == 0 {
    } else {
      var init, last := schedule[..|schedule| - 1], schedule[|schedule| - 1];
      ProgressIsTurns(cfg, y, init, id);
      StepProgress(cfg, Exec(cfg, y, init), last, id);
    }
  }

  lemma NothingErasedYet(schedule: seq<Move>, id: Id, what: Erasure, steps: nat)
    requires |schedule| == 0
    ensures !ErasedAfter(schedule, id, what, steps)
  {
  }

  lemma ErasedAfterSnoc(schedule: seq<Move>, id: Id, what: Erasure, steps: nat)
    requires |schedule| > 0
    ensures var init, last := schedule[..|schedule| - 1], schedule[|schedule| - 1];
            ErasedAfter(schedule, id, what, steps) <==>
            ErasedAfter(init, id, what, steps) || (Erases(last, what) && Turns(init, id) >= steps)
  {
    hide Turns, Erases;
    var init, last := schedule[..|schedule| - 1], schedule[|schedule| - 1];
    if ErasedAfter(schedule, id, what, steps) {
      var n :| 0 <= n < |schedule| && Erases(schedule[n], what) && Turns(schedule[..n], id) >= steps;
      if n < |init| { assert init[..n] == schedule[..n] && Erases(init[n], what); }
    }
    if ErasedAfter(init, id, what, steps) {
      var n :| 0 <= n < |init| && Erases(init[n], what) && Turns(init[..n], id) >= steps;
      assert init[..n] == schedule[..n] && Erases(schedule[n], what);
    }
    if Erases(last, what) && Turns(init, id) >= steps {
      assert schedule[..|init|] == init && Erases(schedule[|init|], what);
    }
  }

  // ---------------------------------------------------------------- concurrency meets the matrix

  predicate Quiescent(y: System) {
    forall id | id in y.clients :: y.clients[id].phase.Logged?
  }

  function DecidedFor(model: string): Client -> bool {
    (c: Client) => c.model == model && !c.phase.Waiting?
  }

  function DecidedForAs(model: string, d: Disposition): Client -> bool {
    (c: Client) => c.model == model && !c.phase.Waiting? && c.phase.decision.disposition == d
  }

  /** The clients of one model that have been decided, and those decided `d`. */
  function DecidedOf(y: System, model: string): set<Id> {
    Select(y.clients, DecidedFor(model))
  }

  function DecidedAs(y: System, model: string, d: Disposition): set<Id> {
    Select(y.clients, DecidedForAs(model, d))
  }

  /** Decisions so far are exactly those of a burst of that many requests. */
  predicate BurstLike(cfg: Limits, y: System, model: string)
    requires model in cfg
  {
    && |DecidedOf(y, model)| == |Submitted(y.history, model)|
    && forall d :: |DecidedAs(y, model, d)| == OfDisposition(BurstCounts(cfg[model], |Submitted(y.history, model)|), d)
  }

  /** What a step does to the clients and to the order of decisions: only a waiting client's
      step decides anything, and it decides by the script. */
  lemma AdvanceClients(cfg: Limits, y: System, id: Id)
    requires id in y.clients && AllConfigured(cfg, y)
    ensures var y' := AdvanceClient(cfg, y, id);
            var c := y.clients[id];
            && id in y'.clients && y'.clients == y.clients[id := y'.clients[id]]
            && y'.clients[id].model == c.model && !y'.clients[id].phase.Waiting?
            && y'.clients[id].phase.decision
               == (if c.phase.Waiting? then Decide(cfg, y.store, c.model) else c.phase.decision)
            && y'.history == if c.phase.Waiting? then y.history + [Submit(c.model, id)] else y.history
  {
    hide LimiterKey, Admit, Decide, ReceiptFor;
  }

  /** The clients submitted to a model since the last reset, in the order of their decisions,
      have the decisions of a burst: the k-th has the k-th, with its counter and depth. */
  predicate InOrder(cfg: Limits, y: System, model: string)
    requires model in cfg
  {
    var ids := Submitted(y.history, model);
    forall k: nat | k < |ids| ::
      && ids[k] in y.clients && y.clients[ids[k]].model == model && !y.clients[ids[k]].phase.Waiting?
      && y.clients[ids[k]].phase.decision == DecisionOf(cfg[model], k)
  }

  lemma AdvanceKeepsOrder(cfg: Limits, y: System, id: Id, model: string)
    requires id in y.clients && AllConfigured(cfg, y) && OwnKey(cfg, model)
    requires y.store == Admission.Run(cfg, y.history) && InOrder(cfg, y, model)
    ensures InOrder(cfg, AdvanceClient(cfg, y, id), model)
  {
    hide LimiterKey, Decide, DecisionOf, AdvanceClient, Submitted, Run, Isolated;
    AdvanceClients(cfg, y, id);
    OwnKeyIsolates(cfg, y.history, model);
    DecisionClosedForm(cfg, y.history, model);
    SubmittedAppend(y.history, Submit(y.clients[id].model, id), model);
  }

  lemma StepKeepsOrder(cfg: Limits, y: System, move: Move, model: string)
    requires AllConfigured(cfg, y) && OwnKey(cfg, model)
    requires y.store == Admission.Run(cfg, y.history) && InOrder(cfg, y, model)
    ensures InOrder(cfg, Step(cfg, y, move), model)
  {
    hide LimiterKey, AdvanceClient, DecisionOf, DeletePolicy, ResetStore, Run, OwnKey;
    match move
    case Advance(id) => if id in y.clients { AdvanceKeepsOrder(cfg, y, id, model); }
    case ResetKeys => SubmittedAppend(y.history, Reset, model);
    case ClearReceipts =>
    case TruncateReceipts =>
  }

  lemma {:induction false} DecisionsInOrder(cfg: Limits, y: System, schedule: seq<Move>, model: string)
    requires Start(cfg, y) && OwnKey(cfg, model)
    ensures InOrder(cfg, Exec(cfg, y, schedule), model)
  {
    hide Step, InOrder, LimiterKey, Run;
    if |schedule| == 0 {
      NobodyInOrder(cfg, y, model);
    } else {
      var init, last := schedule[..|schedule| - 1], schedule[|schedule| - 1];
      DecisionsInOrder(cfg, y, init, model);
      StoreIsSequential(cfg, y, init);
      StepKeepsOrder(cfg, Exec(cfg, y, init), last, model);
    }
  }

  lemma NobodyInOrder(cfg: Limits, y: System, model: string)
    requires Start(cfg, y) && model in cfg
    ensures InOrder(cfg, y, model)
  {
  }

  /** Who counts as decided changes only by a client's own decision. */
  lemma WhoDecides(cfg: Limits, y: System, id: Id, model: string, d: Disposition)
    requires id in y.clients && AllConfigured(cfg, y)
    ensures var c, c' := y.clients[id], AdvanceClient(cfg, y, id).clients[id];
            var decides := c.phase.Waiting? && c.model == model;
            && (DecidedFor(model)(c) ==> DecidedFor(model)(c'))
            && (DecidedForAs(model, d)(c) ==> DecidedForAs(model, d)(c'))
            && (DecidedFor(model)(c') && !DecidedFor(model)(c) <==> decides)
            && (DecidedForAs(model, d)(c') && !DecidedForAs(model, d)(c)
                <==> decides && Decide(cfg, y.store, model).disposition == d)
  {
    hide LimiterKey, Decide, AdvanceClient;
    AdvanceClients(cfg, y, id);
  }

  /** A client that decides joins its model's decided clients, and nobody else changes. */
  lemma DecidedJoins(cfg: Limits, y: System, id: Id, model: string, d: Disposition)
    requires id in y.clients && AllConfigured(cfg, y)
    ensures var y' := AdvanceClient(cfg, y, id);
            var decides := y.clients[id].phase.Waiting? && y.clients[id].model == model;
            var joins := decides && Decide(cfg, y.store, model).disposition == d;
            && |DecidedOf(y', model)| == |DecidedOf(y, model)| + (if decides then 1 else 0)
            && |DecidedAs(y', model, d)| == |DecidedAs(y, model, d)| + (if joins then 1 else 0)
            && DecidedAs(y', model, d) == DecidedAs(y, model, d) + (if joins then {id} else {})
  {
    hide LimiterKey, Decide, AdvanceClient, Select, DecidedFor, DecidedForAs, Admit;
    AdvanceClients(cfg, y, id);
    WhoDecides(cfg, y, id, model, d);
    var c' := AdvanceClient(cfg, y, id).clients[id];
    SelectGrows(y.clients, id, c', DecidedFor(model));
    SelectGrows(y.clients, id, c', DecidedForAs(model, d));
  }

  lemma AdvanceKeepsBurst(cfg: Limits, y: System, id: Id, model: string)
    requires id in y.clients && AllConfigured(cfg, y) && OwnKey(cfg, model)
    requires y.store == Admission.Run(cfg, y.history) && BurstLike(cfg, y, model)
    ensures BurstLike(cfg, AdvanceClient(cfg, y, id), model)
  {
    hide LimiterKey, Admit, Decide, ReceiptFor, DecidedOf, DecidedAs, FateOf, Run, AdvanceClient;
    var y' := AdvanceClient(cfg, y, id);
    var c := y.clients[id];
    AdvanceClients(cfg, y, id);
    DecisionClosedForm(cfg, y.history, model);
    SubmittedAppend(y.history, Submit(c.model, id), model);
    DecidedJoins(cfg, y, id, model, Accepted);
    forall d
      ensures |DecidedAs(y', model, d)| == OfDisposition(BurstCounts(cfg[model], |Submitted(y'.history, model)|), d)
    {
      DecidedJoins(cfg, y, id, model, d);
      var n := |Submitted(y.history, model)|;
      assert BurstCounts(cfg[model], n + 1) == Bump(BurstCounts(cfg[model], n), FateOf(cfg[model], n));
    }
  }

  /** A model's queue holds the clients decided `delayed`, and nobody else. */
  ghost predicate QueueHoldsDelayed(cfg: Limits, y: System, model: string)
    requires model in cfg
  {
    forall id :: id in Queue(y.store, LimiterKey(cfg, model)) <==> id in DecidedAs(y, model, Delayed)
  }

  lemma AdvanceKeepsQueue(cfg: Limits, y: System, id: Id, model: string)
    requires id in y.clients && AllConfigured(cfg, y) && OwnKey(cfg, model)
    requires QueueHoldsDelayed(cfg, y, model)
    ensures QueueHoldsDelayed(cfg, AdvanceClient(cfg, y, id), model)
  {
    hide LimiterKey, ReceiptFor, DecidedAs;
    var y' := AdvanceClient(cfg, y, id);
    DecidedJoins(cfg, y, id, model, Delayed);
  }

  function ClientsOf(y: System, model: string): set<Id> {
    set id | id in y.clients && y.clients[id].model == model
  }

  /** The keys are not reset once a client of this model has moved. */
  predicate Undisturbed(y: System, schedule: seq<Move>, model: string) {
    !LateErasure(ClientsOf(y, model), schedule, OfKeys, 1)
  }

  /** Clients without a turn are undecided. */
  lemma NobodyDecided(cfg: Limits, y: System, schedule: seq<Move>, model: string)
    requires Start(cfg, y) && forall id | id in ClientsOf(y, model) :: Turns(schedule, id) == 0
    ensures DecidedOf(Exec(cfg, y, schedule), model) == {}
  {
    hide Exec, Turns;
    var y' := Exec(cfg, y, schedule);
    SameClients(cfg, y, schedule);
    forall id ensures id !in DecidedOf(y', model) {
      if id in y'.clients { ProgressIsTurns(cfg, y, schedule, id); }
    }
  }

  /** A reset before anybody of this model was decided leaves it as if it were the start. */
  lemma ResetKeepsBurst(cfg: Limits, y: System, model: string)
    requires AllConfigured(cfg, y) && model in cfg && DecidedOf(y, model) == {}
    ensures BurstLike(cfg, Step(cfg, y, ResetKeys), model)
    ensures QueueHoldsDelayed(cfg, Step(cfg, y, ResetKeys), model)
  {
    hide LimiterKey, DecidedOf;
    var y' := Step(cfg, y, ResetKeys);
    SubmittedAppend(y.history, Reset, model);
    ResetEmpties(cfg, y.store, model);
    DecidedSame(y, y', model);
    forall d ensures DecidedAs(y', model, d) == {} { DecidedAsDecided(y', model, d); }
  }

  /** Receipts play no part in it. */
  lemma DeleteKeepsBurst(cfg: Limits, y: System, move: Move, model: string)
    requires AllConfigured(cfg, y) && Erases(move, OfReceipts) && model in cfg
    requires BurstLike(cfg, y, model) && QueueHoldsDelayed(cfg, y, model)
    ensures BurstLike(cfg, Step(cfg, y, move), model) && QueueHoldsDelayed(cfg, Step(cfg, y, move), model)
  {
    hide LimiterKey, Submitted, BurstCounts, DeletePolicy;
    assert Step(cfg, y, move).clients == y.clients;
  }

  lemma DecidedSame(y: System, y': System, model: string)
    requires y.clients == y'.clients
    ensures DecidedOf(y, model) == DecidedOf(y', model)
  {
  }

  lemma DecidedAsDecided(y: System, model: string, d: Disposition)
    ensures DecidedAs(y, model, d) <= DecidedOf(y, model)
  {
  }

  lemma {:induction false} ExecBurst(cfg: Limits, y: System, schedule: seq<Move>, model: string)
    requires Start(cfg, y) && OwnKey(cfg, model) && Undisturbed(y, schedule, model)
    ensures BurstLike(cfg, Exec(cfg, y, schedule), model)
    ensures QueueHoldsDelayed(cfg, Exec(cfg, y, schedule), model)
  {
    hide LimiterKey, AdvanceClient, BurstLike, QueueHoldsDelayed, DecidedOf, Turns, ErasedAfter, ClientsOf;
    if |schedule| == 0 {
      StartBurstLike(cfg, y, model);
    } else {
      var init, last := schedule[..|schedule| - 1], schedule[|schedule| - 1];
      forall id | id in ClientsOf(y, model) { ErasedAfterSnoc(schedule, id, OfKeys, 1); }
      ExecBurst(cfg, y, init, model);
      StoreIsSequential(cfg, y, init);
      var prev := Exec(cfg, y, init);
      match last
      case Advance(id) =>
        if id in prev.clients {
          AdvanceKeepsBurst(cfg, prev, id, model);
          AdvanceKeepsQueue(cfg, prev, id, model);
        }
      case ResetKeys =>
        NobodyDecided(cfg, y, init, model);
        ResetKeepsBurst(cfg, prev, model);
      case ClearReceipts => DeleteKeepsBurst(cfg, prev, last, model);
      case TruncateReceipts => DeleteKeepsBurst(cfg, prev, last, model);
    }
  }

  lemma StartBurstLike(cfg: Limits, y: System, model: string)
    requires Start(cfg, y) && model in cfg
    ensures BurstLike(cfg, y, model) && QueueHoldsDelayed(cfg, y, model)
  {
    assert DecidedOf(y, model) == {};
    forall d ensures |DecidedAs(y, model, d)| == 0 { assert DecidedAs(y, model, d) == {}; }
  }

  lemma SameModels(cfg: Limits, y: System, schedule: seq<Move>, model: string)
    requires Start(cfg, y)
    ensures ClientsOf(Exec(cfg, y, schedule), model) == ClientsOf(y, model)
  {
    hide Exec, Turns;
    SameClients(cfg, y, schedule);
    forall id | id in y.clients
      ensures Exec(cfg, y, schedule).clients[id].model == y.clients[id].model
    {
      ProgressIsTurns(cfg, y, schedule, id);
    }
  }

  /** However many clients race, in whatever order, over however many models, and wherever
      keys are reset before a model's first decision: once all of its clients are done, its
      accepted / delayed / rejected counts are the projected matrix row for that many
      requests, and its queue holds each delayed client exactly once. */
  lemma ConcurrentMatchesMatrix(cfg: Limits, y: System, schedule: seq<Move>, model: string, d: Disposition)
    requires Start(cfg, y) && OwnKey(cfg, model) && 0 <= cfg[model].rate
    requires Undisturbed(y, schedule, model) && Quiescent(Exec(cfg, y, schedule))
    ensures var y' := Exec(cfg, y, schedule);
            && |DecidedAs(y', model, d)| == OfDisposition(MatrixRow(cfg[model], |ClientsOf(y, model)|), d)
            && |Queue(y'.store, LimiterKey(cfg, model))| == |DecidedAs(y', model, Delayed)|
            && forall id :: id in Queue(y'.store, LimiterKey(cfg, model)) <==> id in DecidedAs(y', model, Delayed)
  {
    hide LimiterKey, Exec, BurstCounts, MatrixRow, Submitted, Undisturbed, Isolated;
    var y' := Exec(cfg, y, schedule);
    ExecBurst(cfg, y, schedule, model);
    StoreIsSequential(cfg, y, schedule);
    SameModels(cfg, y, schedule, model);
    assert DecidedOf(y', model) == ClientsOf(y', model);
    MatrixIsBurstIff(cfg[model], |ClientsOf(y', model)|);
    BurstClosedForm(cfg[model], |ClientsOf(y', model)|);
    OwnKeyIsolates(cfg, y'.history, model);
    StoreClosedForm(cfg, y'.history, model);
  }
}
