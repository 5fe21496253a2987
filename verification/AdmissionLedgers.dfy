/** What the ledgers of concurrent submits say about the clients in every state of every
    interleaving, with key resets and receipt deletes at any point: durable receipts, the Redis
    tally and the Redis log. */
module AdmissionLedgers {
  import opened Counting
  import opened Ledger
  import opened Admission
  import opened AdmissionService
  import opened AdmissionConcurrency

  // ---------------------------------------------------------------- who has reached which step

  function HasTaken(steps: nat): Client -> bool {
    (c: Client) => Progress(c.phase) >= steps
  }

  function HasReached(steps: nat, d: Disposition): Client -> bool
    requires steps >= 1
  {
    (c: Client) => Progress(c.phase) >= steps && c.phase.decision.disposition == d
  }

  /** The clients that have taken at least `steps` steps. */
  function Past(y: System, steps: nat): set<Id> {
    Select(y.clients, HasTaken(steps))
  }

  /** Those of them that were decided `d`. */
  function Reached(y: System, steps: nat, d: Disposition): set<Id>
    requires steps >= 1
  {
    Select(y.clients, HasReached(steps, d))
  }

  /** What a client's second, third and fourth step each leave behind. */
  datatype Entry = ReceiptRow | TallyCount | LogEntry

  function StepOf(e: Entry): (steps: nat)
    ensures 2 <= steps <= 4
  {
    match e
    case ReceiptRow => 2
    case TallyCount => 3
    case LogEntry => 4
  }

  function ErasureOf(e: Entry): Erasure {
    if e == ReceiptRow then OfReceipts else OfKeys
  }

  /** The clients that had already made the entry when such entries were last erased. */
  function Wiped(cfg: Limits, y: System, schedule: seq<Move>, e: Entry): set<Id>
    requires AllConfigured(cfg, y)
  {
    if |schedule| == 0 then {}
    else
      var init := schedule[..|schedule| - 1];
      if Erases(schedule[|schedule| - 1], ErasureOf(e)) then Past(Exec(cfg, y, init), StepOf(e))
      else Wiped(cfg, y, init, e)
  }

  lemma TurnsReach(cfg: Limits, y: System, schedule: seq<Move>, id: Id, steps: nat)
    requires Start(cfg, y) && id in y.clients && steps <= 4
    ensures id in Past(Exec(cfg, y, schedule), steps) <==> Turns(schedule, id) >= steps
  {
    hide Exec, Turns;
    ProgressIsTurns(cfg, y, schedule, id);
  }

  // ---------------------------------------------------------------- one step

  /** The receipts of clients are those of everyone past the second step, but for those in
      `lost`. */
  predicate ReceiptsWithout(y: System, lost: set<Id>) {
    && (forall id | id in y.clients ::
          if Progress(y.clients[id].phase) >= 2 && id !in lost
          then id in y.receipts && Records(y.receipts[id], y.clients[id])
          else id !in y.receipts)
    && forall id | id in y.receipts && id !in y.clients :: y.receipts[id].disposition == None
  }

  /** The receipt of this client's own decision. */
  predicate Records(r: Receipt, c: Client)
    requires !c.phase.Waiting?
  {
    r == ReceiptFor(c.model, c.phase.decision.disposition)
  }

  /** The tally counts exactly the clients past their third step, but for those in `lost`. */
  predicate TallyWithout(y: System, lost: set<Id>) {
    forall d :: OfDisposition(y.tally, d) == |Reached(y, 3, d) - lost|
  }

  function LoggedAs(d: Disposition): Event -> bool {
    (e: Event) => e.decision.disposition == d
  }

  function LoggedIds(logs: seq<Event>): set<Id> {
    set e | e in logs :: e.requestId
  }

  /** Log entries carry the decision of a finished client, and none appears twice. */
  predicate LogsSound(y: System) {
    && (forall i | 0 <= i < |y.logs| ::
          var e := y.logs[i];
          e.requestId in y.clients && y.clients[e.requestId].phase == Logged(e.decision))
    && forall i, j | 0 <= i < j < |y.logs| :: y.logs[i].requestId != y.logs[j].requestId
  }

  /** The log holds exactly the clients past their fourth step, but for those in `lost`. */
  predicate LogWithout(y: System, lost: set<Id>) {
    && LoggedIds(y.logs) == Past(y, 4) - lost
    && forall d :: CountIf(y.logs, LoggedAs(d)) == |Reached(y, 4, d) - lost|
  }

  /** One step on: a client that has decided keeps its decision. */
  predicate OneStepOn(c: Client, c': Client) {
    && c'.model == c.model
    && Progress(c'.phase) == Progress(c.phase) + 1
    && (Progress(c.phase) >= 1 ==> c'.phase.decision == c.phase.decision)
  }

  predicate Joins(c': Client, steps: nat, d: Disposition)
    requires steps >= 1
  {
    Progress(c'.phase) == steps && c'.phase.decision.disposition == d
  }

  lemma AddedToRest(whole: set<Id>, lost: set<Id>, id: Id)
    requires id !in whole && id !in lost
    ensures |whole + {id} - lost| == |whole - lost| + 1
  {
    assert whole + {id} - lost == (whole - lost) + {id};
  }

  /** Moving one client on adds it to exactly the level it reaches. */
  lemma ReachedMoves(y: System, y': System, id: Id, steps: nat, d: Disposition, lost: set<Id>)
    requires steps >= 1 && id in y.clients && id in y'.clients && lost <= Past(y, steps)
    requires y'.clients == y.clients[id := y'.clients[id]] && OneStepOn(y.clients[id], y'.clients[id])
    ensures |Reached(y', steps, d) - lost|
            == |Reached(y, steps, d) - lost| + (if Joins(y'.clients[id], steps, d) then 1 else 0)
  {
    hide Select;
    SelectGrows(y.clients, id, y'.clients[id], HasReached(steps, d));
    if Joins(y'.clients[id], steps, d) {
      NotSelected(y.clients, id, HasReached(steps, d));
      NotSelected(y.clients, id, HasTaken(steps));
      AddedToRest(Reached(y, steps, d), lost, id);
    }
  }

  lemma NotSelected(m: map<Id, Client>, id: Id, p: Client -> bool)
    requires id in m && !p(m[id])
    ensures id !in Select(m, p)
  {
  }

  lemma AdvanceShape(cfg: Limits, y: System, id: Id)
    requires id in y.clients && AllConfigured(cfg, y) && Progress(y.clients[id].phase) < 4
    ensures var y' := AdvanceClient(cfg, y, id);
            && id in y'.clients
            && y'.clients == y.clients[id := y'.clients[id]]
            && OneStepOn(y.clients[id], y'.clients[id])
  {
    hide LimiterKey, Admit, Decide, ReceiptFor;
  }

  lemma AdvanceReceipt(cfg: Limits, y: System, id: Id)
    requires id in y.clients && AllConfigured(cfg, y)
    ensures var c := y.clients[id];
            AdvanceClient(cfg, y, id).receipts
            == if c.phase.Decided? then Insert(y.receipts, id, ReceiptFor(c.model, c.phase.decision.disposition))
               else y.receipts
  {
    hide LimiterKey, Admit, Decide, Insert, ReceiptFor;
  }

  lemma AdvanceKeepsReceipts(cfg: Limits, y: System, id: Id, lost: set<Id>)
    requires id in y.clients && AllConfigured(cfg, y) && Progress(y.clients[id].phase) < 4
    requires ReceiptsWithout(y, lost) && lost <= Past(y, 2)
    ensures ReceiptsWithout(AdvanceClient(cfg, y, id), lost)
  {
    hide AdvanceClient, AllConfigured;
    AdvanceShape(cfg, y, id);
    AdvanceReceipt(cfg, y, id);
  }

  lemma AdvanceKeepsTally(cfg: Limits, y: System, id: Id, lost: set<Id>)
    requires id in y.clients && AllConfigured(cfg, y) && Progress(y.clients[id].phase) < 4
    requires TallyWithout(y, lost) && lost <= Past(y, 3)
    ensures TallyWithout(AdvanceClient(cfg, y, id), lost)
  {
    hide LimiterKey, Admit, Decide, Reached, Past, ReceiptFor;
    var y' := AdvanceClient(cfg, y, id);
    AdvanceShape(cfg, y, id);
    forall d ensures OfDisposition(y'.tally, d) == |Reached(y', 3, d) - lost| {
      ReachedMoves(y, y', id, 3, d, lost);
    }
  }

  lemma AdvanceKeepsLogs(cfg: Limits, y: System, id: Id)
    requires id in y.clients && AllConfigured(cfg, y) && Progress(y.clients[id].phase) < 4
    requires LogsSound(y)
    ensures LogsSound(AdvanceClient(cfg, y, id))
  {
    hide LimiterKey, Admit, Decide, ReceiptFor;
  }

  lemma AdvanceLog(cfg: Limits, y: System, id: Id)
    requires id in y.clients && AllConfigured(cfg, y)
    ensures var c := y.clients[id];
            AdvanceClient(cfg, y, id).logs
            == if c.phase.Tallied? then y.logs + [Event(id, c.model, LimiterKey(cfg, c.model), c.phase.decision)]
               else y.logs
  {
    hide LimiterKey, Admit, Decide, ReceiptFor;
  }

  lemma LoggedIdsSnoc(logs: seq<Event>, e: Event)
    ensures LoggedIds(logs + [e]) == LoggedIds(logs) + {e.requestId}
  {
  }

  lemma PastMoves(y: System, y': System, id: Id, steps: nat)
    requires id in y.clients && id in y'.clients
    requires y'.clients == y.clients[id := y'.clients[id]] && OneStepOn(y.clients[id], y'.clients[id])
    ensures Past(y', steps) == Past(y, steps) + (if Progress(y'.clients[id].phase) == steps then {id} else {})
    ensures Progress(y'.clients[id].phase) == steps ==> id !in Past(y, steps)
  {
  }

  lemma AdvanceKeepsLog(cfg: Limits, y: System, id: Id, lost: set<Id>)
    requires id in y.clients && AllConfigured(cfg, y) && Progress(y.clients[id].phase) < 4
    requires LogWithout(y, lost) && lost <= Past(y, 4)
    ensures LogWithout(AdvanceClient(cfg, y, id), lost)
  {
    hide LimiterKey, AdvanceClient, Reached, Past, CountIf, LoggedIds;
    var c, y' := y.clients[id], AdvanceClient(cfg, y, id);
    AdvanceShape(cfg, y, id);
    AdvanceLog(cfg, y, id);
    PastMoves(y, y', id, 4);
    if c.phase.Tallied? { LoggedIdsSnoc(y.logs, y'.logs[|y.logs|]); }
    forall d ensures CountIf(y'.logs, LoggedAs(d)) == |Reached(y', 4, d) - lost| {
      ReachedMoves(y, y', id, 4, d, lost);
      if c.phase.Tallied? { CountSnoc(y.logs, y'.logs[|y.logs|], LoggedAs(d)); }
    }
  }

  lemma FinishedStays(cfg: Limits, y: System, id: Id)
    requires id in y.clients && AllConfigured(cfg, y) && Progress(y.clients[id].phase) >= 4
    ensures AdvanceClient(cfg, y, id) == y
  {
  }

  // ---------------------------------------------------------------- every state of every run

  /** What the three ledgers hold, given the clients whose entries in them were erased. */
  predicate Accounted(y: System, unreceipted: set<Id>, untallied: set<Id>, unlogged: set<Id>) {
    && ReceiptsWithout(y, unreceipted) && unreceipted <= Past(y, 2)
    && TallyWithout(y, untallied) && untallied <= Past(y, 3)
    && LogsSound(y) && LogWithout(y, unlogged) && unlogged <= Past(y, 4)
  }

  lemma StartAccounted(cfg: Limits, y: System)
    requires Start(cfg, y)
    ensures Accounted(y, {}, {}, {})
  {
    assert Past(y, 4) - {} == {};
    forall d ensures |Reached(y, 3, d) - {}| == 0 && |Reached(y, 4, d) - {}| == 0 {
      assert Reached(y, 3, d) - {} == {} && Reached(y, 4, d) - {} == {};
    }
  }

  lemma AdvanceAccounted(cfg: Limits, y: System, id: Id, unreceipted: set<Id>, untallied: set<Id>, unlogged: set<Id>)
    requires AllConfigured(cfg, y) && id in y.clients && Accounted(y, unreceipted, untallied, unlogged)
    ensures Accounted(AdvanceClient(cfg, y, id), unreceipted, untallied, unlogged)
  {
    hide AdvanceClient, ReceiptsWithout, LogsSound, TallyWithout, LogWithout, Past;
    if Progress(y.clients[id].phase) < 4 {
      AdvanceShape(cfg, y, id);
      PastMoves(y, AdvanceClient(cfg, y, id), id, 2);
      PastMoves(y, AdvanceClient(cfg, y, id), id, 3);
      PastMoves(y, AdvanceClient(cfg, y, id), id, 4);
      AdvanceKeepsReceipts(cfg, y, id, unreceipted);
      AdvanceKeepsTally(cfg, y, id, untallied);
      AdvanceKeepsLogs(cfg, y, id);
      AdvanceKeepsLog(cfg, y, id, unlogged);
    } else {
      FinishedStays(cfg, y, id);
    }
  }

  lemma SamePast(y: System, y': System, steps: nat)
    requires y.clients == y'.clients
    ensures Past(y, steps) == Past(y', steps)
    ensures forall d | steps >= 1 :: Reached(y, steps, d) == Reached(y', steps, d)
  {
  }

  lemma ReachedIsPast(y: System, steps: nat, d: Disposition)
    requires steps >= 1
    ensures Reached(y, steps, d) <= Past(y, steps)
  {
  }

  /** Nobody's tally or log entry survives a reset of the keys; receipts do. */
  lemma ResetAccounted(cfg: Limits, y: System, unreceipted: set<Id>, untallied: set<Id>, unlogged: set<Id>)
    requires AllConfigured(cfg, y) && Accounted(y, unreceipted, untallied, unlogged)
    ensures Accounted(Step(cfg, y, ResetKeys), unreceipted, Past(y, 3), Past(y, 4))
  {
    hide ResetStore, Past, Reached;
    var y' := Step(cfg, y, ResetKeys);
    SamePast(y, y', 2);
    SamePast(y, y', 3);
    SamePast(y, y', 4);
    assert LoggedIds([]) == {};
    forall d ensures Reached(y', 3, d) - Past(y, 3) == {} && Reached(y', 4, d) - Past(y, 4) == {} {
      ReachedIsPast(y', 3, d);
      ReachedIsPast(y', 4, d);
    }
  }

  /** No client's receipt survives a delete; tally and log do. */
  lemma DeleteAccounted(cfg: Limits, y: System, move: Move,
                        unreceipted: set<Id>, untallied: set<Id>, unlogged: set<Id>)
    requires AllConfigured(cfg, y) && Accounted(y, unreceipted, untallied, unlogged) && Erases(move, OfReceipts)
    ensures Accounted(Step(cfg, y, move), Past(y, 2), untallied, unlogged)
  {
    hide Past, Reached, TallyWithout, LogWithout, ReceiptsWithout, LogsSound;
    var y' := Step(cfg, y, move);
    SamePast(y, y', 2);
    SamePast(y, y', 3);
    SamePast(y, y', 4);
    DeleteReceipts(cfg, y, move, unreceipted);
    SameLedgers(y, y', untallied, unlogged);
  }

  lemma DeleteReceipts(cfg: Limits, y: System, move: Move, lost: set<Id>)
    requires AllConfigured(cfg, y) && ReceiptsWithout(y, lost) && Erases(move, OfReceipts)
    ensures ReceiptsWithout(Step(cfg, y, move), Past(y, 2))
  {
  }

  lemma SameLedgers(y: System, y': System, untallied: set<Id>, unlogged: set<Id>)
    requires y'.clients == y.clients && y'.tally == y.tally && y'.logs == y.logs
    requires TallyWithout(y, untallied) && LogsSound(y) && LogWithout(y, unlogged)
    ensures TallyWithout(y', untallied) && LogsSound(y') && LogWithout(y', unlogged)
  {
    hide Past, Reached, LoggedIds;
    SamePast(y, y', 3);
    SamePast(y, y', 4);
  }

  /** The books balance in every state of every interleaving, wherever keys are reset and
      receipts deleted: each ledger accounts for exactly the clients past its step, except
      those whose entry was there when it was last erased. */
  lemma {:induction false} ExecAccounted(cfg: Limits, y: System, schedule: seq<Move>)
    requires Start(cfg, y)
    ensures Accounted(Exec(cfg, y, schedule), Wiped(cfg, y, schedule, ReceiptRow),
                      Wiped(cfg, y, schedule, TallyCount), Wiped(cfg, y, schedule, LogEntry))
  {
    hide AdvanceClient, Accounted, Past;
    if |schedule| == 0 {
      StartAccounted(cfg, y);
    } else {
      var init, last := schedule[..|schedule| - 1], schedule[|schedule| - 1];
      var prev := Exec(cfg, y, init);
      var unreceipted, untallied := Wiped(cfg, y, init, ReceiptRow), Wiped(cfg, y, init, TallyCount);
      var unlogged := Wiped(cfg, y, init, LogEntry);
      ExecAccounted(cfg, y, init);
      match last
      case Advance(id) =>
        if id in prev.clients { AdvanceAccounted(cfg, prev, id, unreceipted, untallied, unlogged); }
      case ResetKeys => ResetAccounted(cfg, prev, unreceipted, untallied, unlogged);
      case ClearReceipts => DeleteAccounted(cfg, prev, last, unreceipted, untallied, unlogged);
      case TruncateReceipts => DeleteAccounted(cfg, prev, last, unreceipted, untallied, unlogged);
    }
  }

  /** A log entry spells its client's model and that model's limiter key. */
  predicate EventSpelled(cfg: Limits, y: System, e: Event) {
    && e.requestId in y.clients && e.model == y.clients[e.requestId].model
    && e.model in cfg && e.limiterKey == LimiterKey(cfg, e.model)
  }

  predicate LogSpelled(cfg: Limits, y: System) {
    forall i | 0 <= i < |y.logs| :: EventSpelled(cfg, y, y.logs[i])
  }

  lemma AdvanceKeepsSpelling(cfg: Limits, y: System, id: Id)
    requires id in y.clients && AllConfigured(cfg, y) && LogSpelled(cfg, y)
    ensures LogSpelled(cfg, AdvanceClient(cfg, y, id))
  {
    hide LimiterKey, AdvanceClient, Decide;
    var y' := AdvanceClient(cfg, y, id);
    AdvanceClients(cfg, y, id);
    AdvanceLog(cfg, y, id);
    assert y.clients[id].model in cfg;
    forall i | 0 <= i < |y'.logs| ensures EventSpelled(cfg, y', y'.logs[i]) {
      if i < |y.logs| { assert EventSpelled(cfg, y, y.logs[i]); }
    }
  }

  lemma {:induction false} LogEntriesSay(cfg: Limits, y: System, schedule: seq<Move>)
    requires Start(cfg, y)
    ensures LogSpelled(cfg, Exec(cfg, y, schedule))
  {
    hide LimiterKey, AdvanceClient, ResetStore, DeletePolicy;
    if |schedule| == 0 {
    } else {
      var init, last := schedule[..|schedule| - 1], schedule[|schedule| - 1];
      LogEntriesSay(cfg, y, init);
      if last.Advance? && last.id in Exec(cfg, y, init).clients {
        AdvanceKeepsSpelling(cfg, Exec(cfg, y, init), last.id);
      }
    }
  }

  /** Whatever clients, spikes and key resets do, a receipt of another feature is there with
      its value until an admin reset truncates the table, and no longer. */
  lemma {:induction false} OtherReceiptsStayIff(cfg: Limits, y: System, schedule: seq<Move>, id: Id)
    requires Start(cfg, y) && id in y.receipts && y.receipts[id].policyName != "admission_control"
    ensures var y' := Exec(cfg, y, schedule);
            && (id in y'.receipts <==> TruncateReceipts !in schedule)
            && (id in y'.receipts ==> y'.receipts[id] == y.receipts[id])
  {
    hide LimiterKey, AdvanceClient, ResetStore;
    if |schedule| == 0 {
    } else {
      var init, last := schedule[..|schedule| - 1], schedule[|schedule| - 1];
      var prev := Exec(cfg, y, init);
      assert schedule == init + [last];
      OtherReceiptsStayIff(cfg, y, init, id);
      SameClients(cfg, y, init);
      if last.Advance? && last.id in prev.clients { AdvanceReceipt(cfg, prev, last.id); }
    }
  }

  // ---------------------------------------------------------------- whose entries are erased

  /** Clients only move on, and keep their decisions. */
  predicate Later(y: System, y': System) {
    && y.clients.Keys == y'.clients.Keys
    && forall id | id in y.clients ::
         && Progress(y.clients[id].phase) <= Progress(y'.clients[id].phase)
         && (Progress(y.clients[id].phase) >= 1
             ==> y'.clients[id].phase.decision == y.clients[id].phase.decision)
  }

  lemma StepLater(cfg: Limits, y: System, move: Move)
    requires AllConfigured(cfg, y)
    ensures Later(y, Step(cfg, y, move))
  {
    hide AdvanceClient, ResetStore, DeletePolicy;
    if move.Advance? && move.id in y.clients {
      if Progress(y.clients[move.id].phase) < 4 {
        AdvanceShape(cfg, y, move.id);
      } else {
        FinishedStays(cfg, y, move.id);
      }
    }
  }

  lemma LaterPast(y: System, y': System, steps: nat)
    requires Later(y, y')
    ensures Past(y, steps) <= Past(y', steps)
  {
  }

  lemma PastWithin(y: System, steps: nat)
    ensures Past(y, steps) <= y.clients.Keys
  {
  }

  /** Whose entry is erased can be read off the schedule: those that had already had the turn
      for it when an erasure came. */
  lemma {:induction false} WipedIffTurns(cfg: Limits, y: System, schedule: seq<Move>, e: Entry)
    requires Start(cfg, y)
    ensures Wiped(cfg, y, schedule, e) <= Past(Exec(cfg, y, schedule), StepOf(e))
    ensures forall id :: id in Wiped(cfg, y, schedule, e)
                         <==> id in y.clients && ErasedAfter(schedule, id, ErasureOf(e), StepOf(e))
  {
    hide Step, Past, Turns, ErasedAfter, Erases, ErasureOf;
    if |schedule| == 0 {
      forall id ensures !ErasedAfter(schedule, id, ErasureOf(e), StepOf(e)) {
        NothingErasedYet(schedule, id, ErasureOf(e), StepOf(e));
      }
    } else {
      var init, last := schedule[..|schedule| - 1], schedule[|schedule| - 1];
      var prev := Exec(cfg, y, init);
      WipedIffTurns(cfg, y, init, e);
      StepLater(cfg, prev, last);
      LaterPast(prev, Exec(cfg, y, schedule), StepOf(e));
      SameClients(cfg, y, init);
      PastWithin(prev, StepOf(e));
      forall id
        ensures ErasedAfter(schedule, id, ErasureOf(e), StepOf(e)) <==>
                ErasedAfter(init, id, ErasureOf(e), StepOf(e))
                || (Erases(last, ErasureOf(e)) && Turns(init, id) >= StepOf(e))
        ensures id in y.clients ==> (id in Past(prev, StepOf(e)) <==> Turns(init, id) >= StepOf(e))
      {
        ErasedAfterSnoc(schedule, id, ErasureOf(e), StepOf(e));
        if id in y.clients { TurnsReach(cfg, y, init, id, StepOf(e)); }
      }
    }
  }

  /** So nothing is erased exactly when no erasure comes after a client's turn for the entry. */
  lemma NothingWipedIff(cfg: Limits, y: System, schedule: seq<Move>, e: Entry)
    requires Start(cfg, y)
    ensures Wiped(cfg, y, schedule, e) == {}
            <==> !LateErasure(y.clients.Keys, schedule, ErasureOf(e), StepOf(e))
  {
    hide Exec, Wiped, Past, ErasedAfter;
    WipedIffTurns(cfg, y, schedule, e);
    var wiped := Wiped(cfg, y, schedule, e);
    assert wiped != {} ==> exists id :: id in wiped;
  }

  // ---------------------------------------------------------------- conservation, exactly

  /** How many decisions `d` a ledger counts. */
  function CountOf(y: System, e: Entry, d: Disposition): int {
    match e
    case ReceiptRow => CountWhere(y.receipts, HasDisposition(d))
    case TallyCount => OfDisposition(y.tally, d)
    case LogEntry => CountIf(y.logs, LoggedAs(d))
  }

  function DecidedCount(y: System, d: Disposition): nat {
    |Reached(y, 1, d)|
  }

  /** The erased clients that were decided `d`. */
  function Lost(cfg: Limits, y: System, schedule: seq<Move>, e: Entry, d: Disposition): set<Id>
    requires AllConfigured(cfg, y)
  {
    Wiped(cfg, y, schedule, e) * Reached(Exec(cfg, y, schedule), StepOf(e), d)
  }

  lemma ReceiptsAreReached(y: System, d: Disposition, lost: set<Id>)
    requires ReceiptsWithout(y, lost)
    ensures Select(y.receipts, HasDisposition(d)) == Reached(y, 2, d) - lost
  {
    forall id ensures id in Select(y.receipts, HasDisposition(d)) <==> id in Reached(y, 2, d) - lost {
      if id in y.clients { } else { }
    }
  }

  lemma RestSize(whole: set<Id>, lost: set<Id>)
    ensures |whole - lost| + |lost * whole| == |whole|
  {
    assert whole == (whole - lost) + (lost * whole);
  }

  /** At every moment each ledger counts the clients past its step, less those it lost. */
  lemma EntriesCounted(cfg: Limits, y: System, schedule: seq<Move>, e: Entry, d: Disposition)
    requires Start(cfg, y)
    ensures var y' := Exec(cfg, y, schedule);
            CountOf(y', e, d) + |Lost(cfg, y, schedule, e, d)| == |Reached(y', StepOf(e), d)|
  {
    hide Exec, Wiped, Reached, Past, ReceiptsWithout, LogsSound, CountIf, Select;
    var y' := Exec(cfg, y, schedule);
    ExecAccounted(cfg, y, schedule);
    ReceiptsAreReached(y', d, Wiped(cfg, y, schedule, ReceiptRow));
    RestSize(Reached(y', StepOf(e), d), Wiped(cfg, y, schedule, e));
  }

  /** A ledger counts every client past its step. */
  predicate Complete(y: System, e: Entry) {
    forall d :: CountOf(y, e, d) == |Reached(y, StepOf(e), d)|
  }

  /** Whoever lost an entry was decided one way or another. */
  lemma SomeoneLost(cfg: Limits, y: System, schedule: seq<Move>, e: Entry)
    requires Start(cfg, y)
    ensures Wiped(cfg, y, schedule, e) == {} <==> forall d :: Lost(cfg, y, schedule, e, d) == {}
  {
    hide Exec, Wiped;
    var y' := Exec(cfg, y, schedule);
    WipedIffTurns(cfg, y, schedule, e);
    if Wiped(cfg, y, schedule, e) != {} {
      var id :| id in Wiped(cfg, y, schedule, e);
      assert id in Lost(cfg, y, schedule, e, y'.clients[id].phase.decision.disposition);
    }
  }

  /** Receipts, tally and log are each complete if and only if nothing erased such entries
      after a client's turn for its own. */
  lemma ConservedIff(cfg: Limits, y: System, schedule: seq<Move>, e: Entry)
    requires Start(cfg, y)
    ensures Complete(Exec(cfg, y, schedule), e)
            <==> !LateErasure(y.clients.Keys, schedule, ErasureOf(e), StepOf(e))
  {
    hide Exec, Wiped, LateErasure, Reached, CountOf, Lost;
    NothingWipedIff(cfg, y, schedule, e);
    SomeoneLost(cfg, y, schedule, e);
    forall d
      ensures CountOf(Exec(cfg, y, schedule), e, d) == |Reached(Exec(cfg, y, schedule), StepOf(e), d)|
              <==> Lost(cfg, y, schedule, e, d) == {}
    {
      EntriesCounted(cfg, y, schedule, e, d);
    }
  }

  lemma ReachedNested(y: System, d: Disposition, steps: nat, more: nat)
    requires 1 <= steps <= more
    ensures Reached(y, more, d) <= Reached(y, steps, d)
  {
  }

  lemma SubsetSize(a: set<Id>, b: set<Id>)
    requires a <= b
    ensures |a| <= |b|
    ensures |a| == |b| ==> a == b
  {
    assert b == a + (b - a);
  }

  /** Whatever is erased when, no ledger ever counts more than was decided. */
  lemma DecisionsLead(cfg: Limits, y: System, schedule: seq<Move>, e: Entry, d: Disposition)
    requires Start(cfg, y)
    ensures CountOf(Exec(cfg, y, schedule), e, d) <= DecidedCount(Exec(cfg, y, schedule), d)
  {
    hide Exec, Reached, CountOf, Lost;
    EntriesCounted(cfg, y, schedule, e, d);
    ReachedNested(Exec(cfg, y, schedule), d, 1, StepOf(e));
    SubsetSize(Reached(Exec(cfg, y, schedule), StepOf(e), d), Reached(Exec(cfg, y, schedule), 1, d));
  }

  // ---------------------------------------------------------------- the order of the ledgers

  /** A continuation in which nothing more is erased. */
  predicate OnlyClients(more: seq<Move>) {
    forall i | 0 <= i < |more| :: more[i].Advance?
  }

  /** From here on, as long as nothing more is erased, the one ledger never falls behind the
      other. */
  ghost predicate Leads(cfg: Limits, y: System, schedule: seq<Move>, e: Entry, later: Entry, d: Disposition)
    requires AllConfigured(cfg, y)
  {
    forall more | OnlyClients(more) ::
      CountOf(Exec(cfg, y, schedule + more), e, d) >= CountOf(Exec(cfg, y, schedule + more), later, d)
  }

  lemma {:induction false} MoreIsLater(cfg: Limits, y: System, schedule: seq<Move>, more: seq<Move>, e: Entry)
    requires AllConfigured(cfg, y) && OnlyClients(more)
    ensures Later(Exec(cfg, y, schedule), Exec(cfg, y, schedule + more))
    ensures Wiped(cfg, y, schedule + more, e) == Wiped(cfg, y, schedule, e)
  {
    hide Step, Past;
    if |more| == 0 {
      assert schedule + more == schedule;
    } else {
      var init := more[..|more| - 1];
      assert (schedule + more)[..|schedule + more| - 1] == schedule + init;
      MoreIsLater(cfg, y, schedule, init, e);
      StepLater(cfg, Exec(cfg, y, schedule + init), more[|more| - 1]);
    }
  }

  lemma LaterReached(y: System, y': System, wiped: set<Id>, steps: nat, d: Disposition)
    requires Later(y, y') && steps >= 1 && wiped <= Past(y, steps)
    ensures wiped * Reached(y', steps, d) == wiped * Reached(y, steps, d)
  {
  }

  /** What is lost stays lost, and nothing is added to it. */
  lemma LostStays(cfg: Limits, y: System, schedule: seq<Move>, more: seq<Move>, e: Entry, d: Disposition)
    requires Start(cfg, y) && OnlyClients(more)
    ensures Lost(cfg, y, schedule + more, e, d) == Lost(cfg, y, schedule, e, d)
  {
    hide Exec, Wiped, Past, Reached, Later;
    MoreIsLater(cfg, y, schedule, more, e);
    WipedIffTurns(cfg, y, schedule, e);
    LaterReached(Exec(cfg, y, schedule), Exec(cfg, y, schedule + more), Wiped(cfg, y, schedule, e), StepOf(e), d);
  }

  lemma TurnsAdd(schedule: seq<Move>, more: seq<Move>, id: Id)
    ensures Turns(schedule + more, id) == Turns(schedule, id) + Turns(more, id)
  {
    CountConcat(schedule, more, TurnOf(id));
  }

  /** A continuation that lets every client finish. */
  lemma FinishAll(ids: set<Id>) returns (more: seq<Move>)
    ensures OnlyClients(more) && forall id | id in ids :: Turns(more, id) >= 4
    decreases |ids|
  {
    hide Turns;
    if ids == {} {
      more := [];
    } else {
      var id :| id in ids;
      var rest := FinishAll(ids - {id});
      var turn := Advance(id);
      FourTurns(id);
      more := rest + [turn, turn, turn, turn];
      forall i | i in ids ensures Turns(more, i) >= 4 { TurnsAdd(rest, [turn, turn, turn, turn], i); }
    }
  }

  lemma FourTurns(id: Id)
    ensures Turns([Advance(id), Advance(id), Advance(id)], id) == 3
    ensures Turns([Advance(id), Advance(id), Advance(id), Advance(id)], id) == 4
  {
    hide CountIf;
    var turn := Advance(id);
    CountZero([], TurnOf(id));
    CountSnoc([], turn, TurnOf(id));
    CountSnoc([turn], turn, TurnOf(id));
    CountSnoc([turn, turn], turn, TurnOf(id));
    CountSnoc([turn, turn, turn], turn, TurnOf(id));
    assert [] + [turn] == [turn] && [turn] + [turn] == [turn, turn];
    assert [turn, turn] + [turn] == [turn, turn, turn];
    assert [turn, turn, turn] + [turn] == [turn, turn, turn, turn];
  }

  lemma RestAgrees(y: System, d: Disposition, steps: nat)
    requires Quiescent(y) && 1 <= steps <= 4
    ensures Reached(y, steps, d) == Reached(y, 1, d)
  {
  }

  /** Every client can finish from any point without anything more being erased. */
  lemma RunsToRest(cfg: Limits, y: System, schedule: seq<Move>) returns (more: seq<Move>)
    requires Start(cfg, y)
    ensures OnlyClients(more) && Quiescent(Exec(cfg, y, schedule + more))
  {
    hide Exec, Turns;
    more := FinishAll(y.clients.Keys);
    SameClients(cfg, y, schedule + more);
    forall id | id in y.clients ensures Exec(cfg, y, schedule + more).clients[id].phase.Logged? {
      ProgressIsTurns(cfg, y, schedule + more, id);
      TurnsAdd(schedule, more, id);
    }
  }

  /** Of two ledgers the one written first stays ahead from here on, whoever moves next, if
      and only if it has lost no more entries than the other. */
  lemma LeadsIff(cfg: Limits, y: System, schedule: seq<Move>, e: Entry, later: Entry, d: Disposition)
    requires Start(cfg, y) && StepOf(e) < StepOf(later)
    ensures Leads(cfg, y, schedule, e, later, d)
            <==> |Lost(cfg, y, schedule, e, d)| <= |Lost(cfg, y, schedule, later, d)|
  {
    hide Exec, Reached, CountOf, Lost;
    forall more | OnlyClients(more)
      ensures CountOf(Exec(cfg, y, schedule + more), e, d) - CountOf(Exec(cfg, y, schedule + more), later, d)
              >= |Lost(cfg, y, schedule, later, d)| - |Lost(cfg, y, schedule, e, d)|
    {
      LeadBound(cfg, y, schedule, more, e, later, d);
    }
    var more := RunsToRest(cfg, y, schedule);
    LeadBound(cfg, y, schedule, more, e, later, d);
    RestAgrees(Exec(cfg, y, schedule + more), d, StepOf(e));
    RestAgrees(Exec(cfg, y, schedule + more), d, StepOf(later));
  }

  lemma LeadBound(cfg: Limits, y: System, schedule: seq<Move>, more: seq<Move>, e: Entry, later: Entry, d: Disposition)
    requires Start(cfg, y) && StepOf(e) < StepOf(later) && OnlyClients(more)
    ensures var y' := Exec(cfg, y, schedule + more);
            var clients, done := |Reached(y', StepOf(e), d)|, |Reached(y', StepOf(later), d)|;
            && CountOf(y', e, d) - CountOf(y', later, d)
               == clients - done + |Lost(cfg, y, schedule, later, d)| - |Lost(cfg, y, schedule, e, d)|
            && clients >= done
  {
    hide Exec, Reached, CountOf, Lost;
    var y' := Exec(cfg, y, schedule + more);
    EntriesCounted(cfg, y, schedule + more, e, d);
    EntriesCounted(cfg, y, schedule + more, later, d);
    LostStays(cfg, y, schedule, more, e, d);
    LostStays(cfg, y, schedule, more, later, d);
    ReachedNested(y', d, StepOf(e), StepOf(later));
    SubsetSize(Reached(y', StepOf(later), d), Reached(y', StepOf(e), d));
  }

  /** Nobody was between the two entries when they were last erased: whose first entry is
      gone, their second is gone too. */
  predicate NobodyBetween(ids: set<Id>, schedule: seq<Move>, e: Entry, later: Entry) {
    forall id | id in ids && ErasedAfter(schedule, id, ErasureOf(e), StepOf(e)) ::
      ErasedAfter(schedule, id, ErasureOf(later), StepOf(later))
  }

  lemma NobodyBetweenIff(cfg: Limits, y: System, schedule: seq<Move>, e: Entry, later: Entry)
    requires Start(cfg, y)
    ensures NobodyBetween(y.clients.Keys, schedule, e, later)
            <==> Wiped(cfg, y, schedule, e) <= Wiped(cfg, y, schedule, later)
  {
    hide Exec, Wiped, Past, ErasedAfter;
    WipedIffTurns(cfg, y, schedule, e);
    WipedIffTurns(cfg, y, schedule, later);
  }

  lemma LostNested(cfg: Limits, y: System, schedule: seq<Move>, e: Entry, later: Entry, d: Disposition)
    requires Start(cfg, y) && Wiped(cfg, y, schedule, e) <= Wiped(cfg, y, schedule, later)
    ensures Lost(cfg, y, schedule, e, d) <= Lost(cfg, y, schedule, later, d)
  {
    hide Exec, Wiped;
    WipedIffTurns(cfg, y, schedule, later);
  }

  /** If nobody was between, the order holds from here on for every disposition. */
  lemma LedgersLagInOrder(cfg: Limits, y: System, schedule: seq<Move>, e: Entry, later: Entry, d: Disposition)
    requires Start(cfg, y) && StepOf(e) < StepOf(later)
    requires NobodyBetween(y.clients.Keys, schedule, e, later)
    ensures Leads(cfg, y, schedule, e, later, d)
  {
    hide Exec, Wiped, Lost, Leads, NobodyBetween;
    NobodyBetweenIff(cfg, y, schedule, e, later);
    LostNested(cfg, y, schedule, e, later, d);
    SubsetSize(Lost(cfg, y, schedule, e, d), Lost(cfg, y, schedule, later, d));
    LeadsIff(cfg, y, schedule, e, later, d);
  }

  lemma {:induction false} WipedLogWasTallied(cfg: Limits, y: System, schedule: seq<Move>)
    requires AllConfigured(cfg, y)
    ensures Wiped(cfg, y, schedule, LogEntry) <= Wiped(cfg, y, schedule, TallyCount)
  {
    hide Exec;
    if |schedule| == 0 {
    } else {
      WipedLogWasTallied(cfg, y, schedule[..|schedule| - 1]);
    }
  }

  /** For tally and log, which the same reset erases, that is exact: the tally leads the log
      from here on, for every disposition, if and only if the last reset found no client with
      exactly three turns. */
  lemma TallyLeadsLogIff(cfg: Limits, y: System, schedule: seq<Move>)
    requires Start(cfg, y)
    ensures (forall d :: Leads(cfg, y, schedule, TallyCount, LogEntry, d))
            <==> NobodyBetween(y.clients.Keys, schedule, TallyCount, LogEntry)
  {
    hide Exec, Wiped, Leads, NobodyBetween, Lost;
    if NobodyBetween(y.clients.Keys, schedule, TallyCount, LogEntry) {
      forall d ensures Leads(cfg, y, schedule, TallyCount, LogEntry, d) {
        LedgersLagInOrder(cfg, y, schedule, TallyCount, LogEntry, d);
      }
    } else {
      var d := CaughtBetween(cfg, y, schedule);
      LeadsIff(cfg, y, schedule, TallyCount, LogEntry, d);
    }
  }

  lemma CaughtBetween(cfg: Limits, y: System, schedule: seq<Move>) returns (d: Disposition)
    requires Start(cfg, y) && !NobodyBetween(y.clients.Keys, schedule, TallyCount, LogEntry)
    ensures |Lost(cfg, y, schedule, TallyCount, d)| > |Lost(cfg, y, schedule, LogEntry, d)|
  {
    hide Exec, Wiped, NobodyBetween;
    NobodyBetweenIff(cfg, y, schedule, TallyCount, LogEntry);
    WipedLogWasTallied(cfg, y, schedule);
    WipedIffTurns(cfg, y, schedule, TallyCount);
    WipedIffTurns(cfg, y, schedule, LogEntry);
    var id :| id in Wiped(cfg, y, schedule, TallyCount) && id !in Wiped(cfg, y, schedule, LogEntry);
    d := Exec(cfg, y, schedule).clients[id].phase.decision.disposition;
    var tallied, logged := Lost(cfg, y, schedule, TallyCount, d), Lost(cfg, y, schedule, LogEntry, d);
    assert logged <= tallied && id in tallied && id !in logged;
    SubsetSize(logged, tallied);
  }

  /** When every client has finished, a ledger accounts for every decision if and only if
      nothing erased its entries after a client's turn for its own. */
  lemma LedgersAgreeAtRest(cfg: Limits, y: System, schedule: seq<Move>, e: Entry)
    requires Start(cfg, y) && Quiescent(Exec(cfg, y, schedule))
    ensures (forall d :: CountOf(Exec(cfg, y, schedule), e, d) == DecidedCount(Exec(cfg, y, schedule), d))
            <==> !LateErasure(y.clients.Keys, schedule, ErasureOf(e), StepOf(e))
  {
    hide Exec, Reached, LateErasure, CountOf;
    ConservedIff(cfg, y, schedule, e);
    forall d ensures Reached(Exec(cfg, y, schedule), StepOf(e), d) == Reached(Exec(cfg, y, schedule), 1, d) {
      RestAgrees(Exec(cfg, y, schedule), d, StepOf(e));
    }
  }

  /** A reset between a client's tally and its log entry really breaks the order: the log
      then holds a decision that the tally does not count. */
  lemma ResetRaceLogsUntallied(cfg: Limits, y: System, id: Id)
    requires Start(cfg, y) && id in y.clients
    ensures var y' := Exec(cfg, y, [Advance(id), Advance(id), Advance(id), ResetKeys, Advance(id)]);
            && y'.tally == Counts(0, 0, 0)
            && |y'.logs| == 1 && y'.logs[0].requestId == id
            && OfDisposition(y'.tally, y'.logs[0].decision.disposition)
               < CountIf(y'.logs, LoggedAs(y'.logs[0].decision.disposition))
  {
    hide Exec, ResetStore, LimiterKey, Turns, CountIf;
    var turn := Advance(id);
    var y3 := Exec(cfg, y, [turn, turn, turn]);
    FourTurns(id);
    ProgressIsTurns(cfg, y, [turn, turn, turn], id);
    ExecSnoc(cfg, y, [turn, turn, turn], ResetKeys);
    ExecSnoc(cfg, y, [turn, turn, turn, ResetKeys], turn);
    assert [turn, turn, turn] + [ResetKeys] == [turn, turn, turn, ResetKeys];
    assert [turn, turn, turn, ResetKeys] + [turn] == [turn, turn, turn, ResetKeys, turn];
    var e := Event(id, y3.clients[id].model, LimiterKey(cfg, y3.clients[id].model), y3.clients[id].phase.decision);
    CountSnoc([], e, LoggedAs(e.decision.disposition));
    assert [] + [e] == [e];
  }
}
