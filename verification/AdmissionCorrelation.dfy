/** The correlation of one logged admission decision with its durable receipt, traced while
    clients, resets and deletes interleave. */
module AdmissionCorrelation {
  import opened Counting
  import opened Ledger
  import opened Admission
  import opened AdmissionService
  import opened AdmissionConcurrency
  import opened AdmissionLedgers

  datatype Correlation = Correlation(target: Option<Id>, inLog: bool, inReceipt: bool, matches: bool)

  function LastRejected(logs: seq<Event>): Option<Id> {
    if |logs| == 0 then None
    else if logs[|logs| - 1].decision.disposition == Rejected then Some(logs[|logs| - 1].requestId)
    else LastRejected(logs[..|logs| - 1])
  }

  /** The request traced when none is named: the latest rejected one, else the latest. */
  function DefaultTarget(logs: seq<Event>): Option<Id> {
    if LastRejected(logs).Some? then LastRejected(logs)
    else if |logs| > 0 then Some(logs[|logs| - 1].requestId) else None
  }

  /** The first log entry of a request. */
  function FindEvent(logs: seq<Event>, id: Id): Option<Event> {
    if |logs| == 0 then None
    else if logs[0].requestId == id then Some(logs[0])
    else FindEvent(logs[1..], id)
  }

  /** An empty id counts as none, both when asked for and when looked up. */
  function Named(id: Option<Id>): Option<Id> {
    if id == Some("") then None else id
  }

  function Correlate(logs: seq<Event>, receipts: Table, requested: Option<Id>): Correlation {
    var target := if Named(requested).Some? then requested else DefaultTarget(logs);
    var event := if target.Some? then FindEvent(logs, target.value) else None;
    var inReceipt := Named(target).Some? && target.value in receipts;
    Correlation(target, event.Some?, inReceipt,
                event.Some? && inReceipt
                && receipts[target.value].disposition == Some(event.value.decision.disposition))
  }

  lemma {:induction false} FindEventFinds(logs: seq<Event>, id: Id)
    ensures match FindEvent(logs, id)
            case None => forall i | 0 <= i < |logs| :: logs[i].requestId != id
            case Some(e) => e in logs && e.requestId == id
  {
    if |logs| == 0 || logs[0].requestId == id {
    } else {
      FindEventFinds(logs[1..], id);
      assert logs == [logs[0]] + logs[1..];
    }
  }

  lemma {:induction false} LastRejectedIsLogged(logs: seq<Event>)
    ensures LastRejected(logs).Some? ==> exists i :: 0 <= i < |logs| && Some(logs[i].requestId) == LastRejected(logs)
  {
    if |logs| == 0 || logs[|logs| - 1].decision.disposition == Rejected {
    } else {
      var init := logs[..|logs| - 1];
      LastRejectedIsLogged(init);
      if LastRejected(init).Some? {
        var i :| 0 <= i < |init| && Some(init[i].requestId) == LastRejected(init);
        assert logs[i] == init[i];
      }
    }
  }

  predicate LatestRejected(logs: seq<Event>, i: nat) {
    && i < |logs| && logs[i].decision.disposition == Rejected
    && forall j | i < j < |logs| :: logs[j].decision.disposition != Rejected
  }

  lemma {:induction false} LastRejectedIsLatest(logs: seq<Event>)
    ensures LastRejected(logs).Some? <==> exists i: nat :: LatestRejected(logs, i)
    ensures forall i: nat :: LatestRejected(logs, i) ==> LastRejected(logs) == Some(logs[i].requestId)
  {
    if |logs| == 0 {
    } else if logs[|logs| - 1].decision.disposition == Rejected {
      assert LatestRejected(logs, |logs| - 1);
    } else {
      var init := logs[..|logs| - 1];
      LastRejectedIsLatest(init);
      forall i: nat ensures LatestRejected(logs, i) <==> LatestRejected(init, i) { LatestInPrefix(logs, i); }
    }
  }

  lemma LatestInPrefix(logs: seq<Event>, i: nat)
    requires |logs| > 0 && logs[|logs| - 1].decision.disposition != Rejected
    ensures LatestRejected(logs, i) <==> LatestRejected(logs[..|logs| - 1], i)
  {
    var init := logs[..|logs| - 1];
    assert forall j | 0 <= j < |init| :: init[j] == logs[j];
  }

  /** With no id named the trace follows the latest rejected request, else the latest logged
      one, else none; an id that is named is the target itself. */
  lemma TargetMeaning(logs: seq<Event>, receipts: Table, requested: Option<Id>)
    ensures var target := Correlate(logs, receipts, requested).target;
            && (requested.Some? && requested.value != "" ==> target == requested)
            && (requested == None || requested == Some("") ==>
                  && (forall i: nat :: LatestRejected(logs, i) ==> target == Some(logs[i].requestId))
                  && (|logs| > 0 && (forall i: nat :: !LatestRejected(logs, i)) ==>
                        target == Some(logs[|logs| - 1].requestId))
                  && (|logs| == 0 ==> target == None))
  {
    hide LastRejected, LatestRejected, FindEvent;
    LastRejectedIsLatest(logs);
    NothingRejected(logs);
  }

  lemma NothingRejected(logs: seq<Event>)
    ensures |logs| == 0 ==> LastRejected(logs) == None
    ensures forall i: nat :: LatestRejected(logs, i) ==> |logs| > 0
  {
  }

  /** The first log entry of a request. */
  predicate FirstEntry(logs: seq<Event>, i: nat, id: Id) {
    i < |logs| && logs[i].requestId == id && forall j | 0 <= j < i :: logs[j].requestId != id
  }

  lemma {:induction false} FindsFirst(logs: seq<Event>, i: nat, id: Id)
    requires FirstEntry(logs, i, id)
    ensures FindEvent(logs, id) == Some(logs[i])
  {
    if i == 0 {
    } else {
      FindsFirst(logs[1..], i - 1, id);
    }
  }

  /** Over any log and table, whether they belong together or not: the correlation matches
      exactly when the target's receipt is there and carries the disposition of the target's
      first log entry. */
  lemma MatchMeaning(logs: seq<Event>, receipts: Table, requested: Option<Id>, i: nat)
    requires var target := Correlate(logs, receipts, requested).target;
             target.Some? && FirstEntry(logs, i, target.value)
    ensures var c := Correlate(logs, receipts, requested);
            && c.inLog
            && (c.inReceipt <==> c.target.value != "" && c.target.value in receipts)
            && (c.matches
                <==> c.inReceipt && receipts[c.target.value].disposition == Some(logs[i].decision.disposition))
  {
    FindsFirst(logs, i, Correlate(logs, receipts, requested).target.value);
  }

  lemma FoundIffLogged(logs: seq<Event>, id: Id)
    ensures FindEvent(logs, id).Some? <==> id in LoggedIds(logs)
    ensures FindEvent(logs, id).Some? ==> FindEvent(logs, id).value in logs && FindEvent(logs, id).value.requestId == id
  {
    hide FindEvent;
    FindEventFinds(logs, id);
  }

  /** The correlation of one client, exactly and from the schedule alone: it is in the log once
      it has had its fourth turn, unless a reset of the keys came after that; its receipt is
      there from the second turn on, unless receipts were deleted after that; and it matches
      exactly when both are there. */
  lemma CorrelationExact(cfg: Limits, y: System, schedule: seq<Move>, id: Id)
    requires Start(cfg, y) && "" !in y.clients && id in y.clients
    ensures var c := Correlate(Exec(cfg, y, schedule).logs, Exec(cfg, y, schedule).receipts, Some(id));
            && (c.inLog <==> Turns(schedule, id) >= 4 && !ErasedAfter(schedule, id, OfKeys, 4))
            && (c.inReceipt <==> Turns(schedule, id) >= 2 && !ErasedAfter(schedule, id, OfReceipts, 2))
            && (c.matches <==> c.inLog && c.inReceipt)
  {
    hide Exec, Wiped, TallyWithout, Past, Turns, ErasedAfter, FindEvent, LoggedIds, CountIf, Reached, DefaultTarget;
    var y' := Exec(cfg, y, schedule);
    ExecAccounted(cfg, y, schedule);
    SameClients(cfg, y, schedule);
    FoundIffLogged(y'.logs, id);
    TurnsReach(cfg, y, schedule, id, 2);
    TurnsReach(cfg, y, schedule, id, 4);
    WipedIffTurns(cfg, y, schedule, ReceiptRow);
    WipedIffTurns(cfg, y, schedule, LogEntry);
    ProgressIsTurns(cfg, y, schedule, id);
  }

  /** Whoever is asked for, or nobody: a correlation matches exactly when its target is in the
      log and receipts were not deleted after that client's second turn. With no id named the
      target is in the log as soon as anything is. */
  lemma LoggedCorrelatesIff(cfg: Limits, y: System, schedule: seq<Move>, requested: Option<Id>)
    requires Start(cfg, y) && "" !in y.clients
    ensures var y' := Exec(cfg, y, schedule);
            var c := Correlate(y'.logs, y'.receipts, requested);
            && (c.inLog ==> c.target.Some? && c.target.value in y.clients)
            && (c.matches <==> c.inLog && !ErasedAfter(schedule, c.target.value, OfReceipts, 2))
            && (requested == None || requested == Some("") ==> (c.inLog <==> |y'.logs| > 0))
  {
    hide Exec, Wiped, TallyWithout, LogWithout, Past, Turns, ErasedAfter, FindEvent, CountIf, LastRejected,
      ReceiptsWithout;
    var y' := Exec(cfg, y, schedule);
    ExecAccounted(cfg, y, schedule);
    LastRejectedIsLogged(y'.logs);
    SameClients(cfg, y, schedule);
    var target := if Named(requested).Some? then requested else DefaultTarget(y'.logs);
    if target.Some? {
      FoundIffLogged(y'.logs, target.value);
      if target.value in y.clients { CorrelationExact(cfg, y, schedule, target.value); }
    }
  }

  // ---------------------------------------------------------------- a spike that races a client

  /** The schedule in which a spike's reset and delete fall between a client's receipt and
      its tally. */
  function SpikeRace(id: Id): seq<Move> {
    [Advance(id), Advance(id), ResetKeys, ClearReceipts, Advance(id), Advance(id)]
  }

  lemma TurnsNext(schedule: seq<Move>, n: nat, id: Id)
    requires n < |schedule|
    ensures Turns(schedule[..n + 1], id)
            == Turns(schedule[..n], id) + (if schedule[n] == Advance(id) then 1 else 0)
  {
    CountSnoc(schedule[..n], schedule[n], TurnOf(id));
    assert schedule[..n + 1] == schedule[..n] + [schedule[n]];
  }

  lemma SpikeRaceTurns(id: Id, other: Id)
    ensures Turns(SpikeRace(id)[..2], other) == Turns(SpikeRace(id)[..3], other) == if other == id then 2 else 0
    ensures Turns(SpikeRace(id), other) == if other == id then 4 else 0
  {
    hide Turns;
    var s := SpikeRace(id);
    NoTurns(other);
    assert s[..0] == [] && s[..6] == s;
    TurnsNext(s, 0, other);
    TurnsNext(s, 1, other);
    TurnsNext(s, 2, other);
    TurnsNext(s, 3, other);
    TurnsNext(s, 4, other);
    TurnsNext(s, 5, other);
  }

  lemma NoTurns(id: Id)
    ensures Turns([], id) == 0
  {
  }

  lemma SpikeRaceErases(id: Id)
    ensures ErasedAfter(SpikeRace(id), id, OfReceipts, 2)
    ensures forall other :: !ErasedAfter(SpikeRace(id), other, OfKeys, 3)
    ensures forall other :: !ErasedAfter(SpikeRace(id), other, OfKeys, 4)
  {
    hide Turns;
    var s := SpikeRace(id);
    SpikeRaceTurns(id, id);
    assert Erases(s[3], OfReceipts) && Turns(s[..3], id) >= 2;
    forall other, n | 0 <= n < |s| && Erases(s[n], OfKeys) ensures Turns(s[..n], other) < 3 {
      SpikeRaceTurns(id, other);
    }
  }

  /** Then the client ends in the log and in the tally without a receipt, and its correlation
      fails. */
  lemma SpikeOrphansLog(cfg: Limits, y: System, id: Id)
    requires Start(cfg, y) && "" !in y.clients && id in y.clients
    ensures var y' := Exec(cfg, y, SpikeRace(id));
            var c := Correlate(y'.logs, y'.receipts, Some(id));
            && c.inLog && !c.inReceipt && !c.matches
            && exists d :: CountOf(y', ReceiptRow, d) < CountOf(y', TallyCount, d)
  {
    hide Exec, Turns, ErasedAfter, Correlate, CountOf, SpikeRace;
    SpikeRaceTurns(id, id);
    SpikeRaceErases(id);
    CorrelationExact(cfg, y, SpikeRace(id), id);
    SpikeRaceCounts(cfg, y, id);
  }

  lemma SpikeRaceCounts(cfg: Limits, y: System, id: Id)
    requires Start(cfg, y) && id in y.clients
    ensures exists d :: CountOf(Exec(cfg, y, SpikeRace(id)), ReceiptRow, d)
                        < CountOf(Exec(cfg, y, SpikeRace(id)), TallyCount, d)
  {
    hide Exec, Turns, ErasedAfter, CountOf, SpikeRace, Wiped;
    var y' := Exec(cfg, y, SpikeRace(id));
    SameClients(cfg, y, SpikeRace(id));
    forall other | other in y.clients
      ensures Progress(y'.clients[other].phase) == if other == id then 4 else 0
    {
      ProgressIsTurns(cfg, y, SpikeRace(id), other);
      SpikeRaceTurns(id, other);
    }
    var d := y'.clients[id].phase.decision.disposition;
    SpikeRaceErases(id);
    WipedIffTurns(cfg, y, SpikeRace(id), ReceiptRow);
    WipedIffTurns(cfg, y, SpikeRace(id), TallyCount);
    EntriesCounted(cfg, y, SpikeRace(id), ReceiptRow, d);
    EntriesCounted(cfg, y, SpikeRace(id), TallyCount, d);
    assert Reached(y', 2, d) == Reached(y', 3, d);
    assert id in Lost(cfg, y, SpikeRace(id), ReceiptRow, d);
    assert Lost(cfg, y, SpikeRace(id), TallyCount, d) == {};
  }
}
