/** `SagaOrchestrator.start_saga` and `_compensate`: session edits, commits and calls in the order the code makes them. */
module SagaOrchestrator {
  import opened Common
  import opened HttpAdapters
  import opened SagaRow

  /** What each downstream call would answer, were it made. */
  datatype Script = Script(
    auth: Outcome<Body>,
    reserve: Outcome<Body>,
    eta: EtaAnswer,
    refund: Outcome<Body>)

  /** The answer the orchestrator waits for in a durable state. */
  function Heard(s: SagaState, script: Script): Input {
    if s.PaymentPending? then Authorization(script.auth)
    else if s.InventoryPending? then Reservation(script.reserve)
    else if s.EtaPending? then Estimate(script.eta)
    else if s.Refunding? then Refund(script.refund)
    else Continue
  }

  /** The rows committed after `r`, by iterating the single-commit transition until it no longer moves. */
  function Rest(r: Row, script: Script): (rows: seq<Row>)
    decreases 7 - Depth(r.state)
  {
    AdvanceDescends(r, Heard(r.state, script));
    var next := Advance(r, Heard(r.state, script));
    if next == r then [] else [next] + Rest(next, script)
  }

  function Last(r: Row, script: Script): (last: Row) {
    var rows := Rest(r, script);
    if rows == [] then r else rows[|rows| - 1]
  }

  lemma RestStep(r: Row, script: Script)
    requires Advance(r, Heard(r.state, script)) != r
    ensures Rest(r, script) == [Advance(r, Heard(r.state, script))] + Rest(Advance(r, Heard(r.state, script)), script)
    ensures Last(r, script) == Last(Advance(r, Heard(r.state, script)), script)
  {
  }

  /** Every run of the orchestrator ends in a terminal state with a good row, and every row it commits is good. */
  lemma {:induction false} EveryCommitIsGood(r: Row, script: Script)
    requires GoodRow(r)
    ensures forall k :: 0 <= k < |Rest(r, script)| ==> GoodRow(Rest(r, script)[k])
    ensures GoodRow(Last(r, script)) && Terminal(Last(r, script).state)
    decreases 7 - Depth(r.state)
  {
    var i := Heard(r.state, script);
    AdvanceDescends(r, i);
    AdvanceKeepsRow(r, i);
    if Advance(r, i) != r {
      RestStep(r, script);
      EveryCommitIsGood(Advance(r, i), script);
    }
  }

  // ----- The outcome, from the answers alone -----

  const StartLog := [Step(SagaStarted, Created, PaymentPending, Forward)]

  const PaidLog := StartLog
    + [Step(PaymentAuthorized, PaymentPending, PaymentOk, Forward)]
    + [Step(InventoryReserveStart, PaymentOk, InventoryPending, Forward)]

  const HeldLog := PaidLog
    + [Step(InventoryReserved, InventoryPending, InventoryOk, Forward)]
    + [Step(EtaRequestStart, InventoryOk, EtaPending, Forward)]

  /** The log of a saga whose payment failed. */
  function UnpaidLog(error: bool): seq<Step> {
    StartLog
    + [Step(if error then PaymentError else PaymentDeclined, PaymentPending, PaymentFailed, Forward)]
    + [Step(if error then CancelledPaymentError else CancelledPaymentDeclined, PaymentFailed, Cancelled, Forward)]
  }

  /** The log of a saga whose reservation failed, up to the refund call. */
  function RefundingLog(error: bool): seq<Step> {
    PaidLog
    + [Step(if error then InventoryError else InventoryOutOfStock, InventoryPending, InventoryFailed, Forward)]
    + [Step(CompensateRefundStart, InventoryFailed, Refunding, Compensate)]
  }

  const RefundedTail :=
    [Step(CompensateRefundDone, Refunding, RefundedState, Compensate)]
    + [Step(SagaCancelled, RefundedState, Cancelled, Compensate)]

  const ConfirmedTail := [Step(EtaReceivedConfirmed, EtaPending, Confirmed, Forward)]

  const DegradedTail := [Step(EtaDegradedConfirmed, EtaPending, ConfirmedDegraded, Forward)]

  /** The row of a saga that reached the ETA step, by what the ETA service answered. */
  function AfterEstimate(order: Id, payment: Id, reservation: Id, eta: EtaAnswer): Row {
    var confirmed := (e: Eta) =>
      Row(order, Confirmed, Some(payment), Some(reservation), None, Some(e), false, true, HeldLog + ConfirmedTail);
    var degraded := (minutes: real, lower: real, upper: real) =>
      Row(order, ConfirmedDegraded, Some(payment), Some(reservation), None, Some(Eta(minutes, Some(lower), Some(upper))),
          true, true, HeldLog + DegradedTail);
    match eta
    case NoService => degraded(32.0, 25.0, 40.0)
    case EtaRaised => degraded(32.0, 25.0, 40.0)
    case EtaReply(Some(minutes), lower, upper, None) => confirmed(Eta(minutes, lower, upper))
    case EtaReply(Some(minutes), lower, upper, Some(false)) => confirmed(Eta(minutes, lower, upper))
    case EtaReply(Some(minutes), lower, upper, Some(true)) => degraded(minutes, Or(lower, 25.0), Or(upper, 40.0))
    case EtaReply(None, lower, upper, _) => degraded(32.0, Or(lower, 25.0), Or(upper, 40.0))
  }

  function Or(o: Option<real>, default: real): real {
    match o
    case Some(x) => x
    case None => default
  }

  /** The final row of a saga, read off the answers of the four calls. */
  function FinalRow(order: Id, script: Script): Row {
    match script.auth
    case Raise => Row(order, Cancelled, None, None, None, None, false, true, UnpaidLog(true))
    case Return(PaymentBody(payment, Authorized)) =>
      (match script.reserve
       case Return(ReservationBody(reservation, Reserved)) => AfterEstimate(order, payment, reservation, script.eta)
       case failed =>
         match script.refund
         case Raise =>
           Row(order, ManualReview, Some(payment), None, None, None, false, true,
               RefundingLog(failed.Raise?) + [Step(CompensateRefundFailed, Refunding, ManualReview, Compensate)])
         case Return(PaymentBody(refund, _)) =>
           Row(order, Cancelled, Some(payment), None, Some(refund), None, false, true,
               RefundingLog(failed.Raise?) + RefundedTail)
         case Return(_) =>
           Row(order, Cancelled, Some(payment), None, None, None, false, true,
               RefundingLog(failed.Raise?) + RefundedTail))
    case Return(_) => Row(order, Cancelled, None, None, None, None, false, true, UnpaidLog(false))
  }

  lemma {:induction false} LastStep(r: Row, script: Script, next: Row)
    requires Advance(r, Heard(r.state, script)) == next && next != r
    ensures Last(r, script) == Last(next, script)
  {
    RestStep(r, script);
  }

  lemma {:induction false} LastEnds(r: Row, script: Script)
    requires Terminal(r.state)
    ensures Last(r, script) == r
  {
    assert Rest(r, script) == [];
  }

  /** From ETA_PENDING: an estimate that is not marked degraded confirms with exactly that estimate; everything else
      confirms in degraded mode, with the fallback for each missing part. */
  lemma {:induction false} EtaEnds(order: Id, payment: Id, reservation: Id, script: Script)
    ensures var r := Row(order, EtaPending, Some(payment), Some(reservation), None, None, false, false, HeldLog);
      Last(r, script) == AfterEstimate(order, payment, reservation, script.eta)
  {
    var r := Row(order, EtaPending, Some(payment), Some(reservation), None, None, false, false, HeldLog);
    var next := AfterEstimate(order, payment, reservation, script.eta);
    assert Advance(r, Estimate(script.eta)) == next;
    LastStep(r, script, next);
    LastEnds(next, script);
  }

  /** From RESERVED to the ETA step. */
  lemma {:induction false} HeldEnds(order: Id, payment: Id, reservation: Id, script: Script)
    requires script.reserve == Return(ReservationBody(reservation, Reserved))
    ensures var r := Row(order, InventoryPending, Some(payment), None, None, None, false, false, PaidLog);
      Last(r, script) == AfterEstimate(order, payment, reservation, script.eta)
  {
    var r := Row(order, InventoryPending, Some(payment), None, None, None, false, false, PaidLog);
    var r1 := Row(order, InventoryOk, Some(payment), Some(reservation), None, None, false, false,
                  PaidLog + [Step(InventoryReserved, InventoryPending, InventoryOk, Forward)]);
    var r2 := Row(order, EtaPending, Some(payment), Some(reservation), None, None, false, false, HeldLog);
    LastStep(r, script, r1);
    LastStep(r1, script, r2);
    EtaEnds(order, payment, reservation, script);
  }

  /** From a failed reservation through the compensation. */
  lemma {:induction false} RefundEnds(order: Id, payment: Id, script: Script)
    requires !(script.reserve.Return? && script.reserve.value.ReservationBody?
               && script.reserve.value.reservationStatus == Reserved)
    requires script.auth == Return(PaymentBody(payment, Authorized))
    ensures var r := Row(order, InventoryPending, Some(payment), None, None, None, false, false, PaidLog);
      Last(r, script) == FinalRow(order, script)
  {
    var error := script.reserve.Raise?;
    var r := Row(order, InventoryPending, Some(payment), None, None, None, false, false, PaidLog);
    var name := if error then InventoryError else InventoryOutOfStock;
    var r1 := Row(order, InventoryFailed, Some(payment), None, None, None, false, false,
                  PaidLog + [Step(name, InventoryPending, InventoryFailed, Forward)]);
    var r2 := Row(order, Refunding, Some(payment), None, None, None, false, false, RefundingLog(error));
    LastStep(r, script, r1);
    LastStep(r1, script, r2);
    CompensationEnds(order, payment, script, error);
  }

  lemma {:induction false} CompensationEnds(order: Id, payment: Id, script: Script, error: bool)
    ensures var r := Row(order, Refunding, Some(payment), None, None, None, false, false, RefundingLog(error));
      Last(r, script) ==
      match script.refund
      case Raise =>
        Row(order, ManualReview, Some(payment), None, None, None, false, true,
            RefundingLog(error) + [Step(CompensateRefundFailed, Refunding, ManualReview, Compensate)])
      case Return(PaymentBody(refund, _)) =>
        Row(order, Cancelled, Some(payment), None, Some(refund), None, false, true, RefundingLog(error) + RefundedTail)
      case Return(_) =>
        Row(order, Cancelled, Some(payment), None, None, None, false, true, RefundingLog(error) + RefundedTail)
  {
    var r := Row(order, Refunding, Some(payment), None, None, None, false, false, RefundingLog(error));
    var next := Advance(r, Refund(script.refund));
    if script.refund.Return? {
      assert RefundingLog(error) + [Step(CompensateRefundDone, Refunding, RefundedState, Compensate)]
        + [Step(SagaCancelled, RefundedState, Cancelled, Compensate)] == RefundingLog(error) + RefundedTail;
    }
    LastStep(r, script, next);
    LastEnds(next, script);
  }

  lemma {:induction false} PaidEnds(order: Id, payment: Id, script: Script)
    requires script.auth == Return(PaymentBody(payment, Authorized))
    ensures Last(Started(order), script) == FinalRow(order, script)
  {
    var r1 := Row(order, PaymentOk, Some(payment), None, None, None, false, false,
                  StartLog + [Step(PaymentAuthorized, PaymentPending, PaymentOk, Forward)]);
    var r2 := Row(order, InventoryPending, Some(payment), None, None, None, false, false, PaidLog);
    LastStep(Started(order), script, r1);
    LastStep(r1, script, r2);
    if script.reserve.Return? && script.reserve.value.ReservationBody? && script.reserve.value.reservationStatus == Reserved {
      HeldEnds(order, payment, script.reserve.value.reservationId, script);
    } else {
      RefundEnds(order, payment, script);
    }
  }

  /** The whole outcome of a saga: iterating the commits ends in the row that the answers call for. */
  lemma {:induction false} OutcomeIs(order: Id, script: Script)
    ensures Last(Started(order), script) == FinalRow(order, script)
  {
    if script.auth.Return? && script.auth.value.PaymentBody? && script.auth.value.paymentStatus == Authorized {
      PaidEnds(order, script.auth.value.paymentId, script);
    } else {
      LastStep(Started(order), script, FinalRow(order, script));
      LastEnds(FinalRow(order, script), script);
    }
  }

  ghost predicate IsCharged(script: Script) {
    exists id :: script.auth == Return(PaymentBody(id, Authorized))
  }

  ghost predicate IsHeld(script: Script) {
    exists id :: script.reserve == Return(ReservationBody(id, Reserved))
  }

  /** The ETA service gave an estimate and did not mark it degraded. */
  predicate IsEstimated(script: Script) {
    script.eta.EtaReply? && script.eta.minutes.Some? && script.eta.degraded != Some(true)
  }

  /** Which of the four final states results, from the answers alone. */
  lemma {:induction false} FinalStateIff(order: Id, script: Script)
    ensures var state := Last(Started(order), script).state;
      && (state.Confirmed? <==> IsCharged(script) && IsHeld(script) && IsEstimated(script))
      && (state.ConfirmedDegraded? <==> IsCharged(script) && IsHeld(script) && !IsEstimated(script))
      && (state.ManualReview? <==> IsCharged(script) && !IsHeld(script) && script.refund.Raise?)
      && (state.Cancelled? <==> !IsCharged(script) || (!IsHeld(script) && script.refund.Return?))
  {
    OutcomeIs(order, script);
    if script.auth.Return? && script.auth.value.PaymentBody? && script.auth.value.paymentStatus == Authorized {
      assert script.auth == Return(PaymentBody(script.auth.value.paymentId, Authorized));
    }
    if script.reserve.Return? && script.reserve.value.ReservationBody? && script.reserve.value.reservationStatus == Reserved {
      assert script.reserve == Return(ReservationBody(script.reserve.value.reservationId, Reserved));
    }
  }

  /** What a run that started over the table `base` will have committed, and the row it will end in. */
  datatype Goal = Goal(base: map<Id, Row>, script: Script, plan: seq<Row>, end: Row)

  /** With `done` committed and `r` the row just made durable, the run is on its way to the goal. */
  ghost predicate OnTrack(table: map<Id, Row>, done: seq<Row>, r: Row, goal: Goal) {
    && table == goal.base[r.orderId := r]
    && done + Rest(r, goal.script) == goal.plan
    && Last(r, goal.script) == goal.end
  }

  lemma TrackStep(table: map<Id, Row>, done: seq<Row>, r: Row, next: Row, goal: Goal)
    requires OnTrack(table, done, r, goal)
    requires next == Advance(r, Heard(r.state, goal.script)) && next != r && next.orderId == r.orderId
    ensures OnTrack(table[next.orderId := next], done + [next], next, goal)
  {
    RestStep(r, goal.script);
    assert done + ([next] + Rest(next, goal.script)) == (done + [next]) + Rest(next, goal.script);
  }

  lemma TrackEnd(table: map<Id, Row>, done: seq<Row>, r: Row, goal: Goal)
    requires OnTrack(table, done, r, goal) && Terminal(r.state)
    ensures done == goal.plan && r == goal.end
  {
    assert Rest(r, goal.script) == [];
  }

  class Orchestrator {
    /** The durable `saga_instances` rows with their step logs; `order_id` is UNIQUE. */
    var table: map<Id, Row>
    /** The session's working copy of the saga being driven. */
    var row: Row
    /** Every row made durable so far, in commit order. */
    var commits: seq<Row>

    constructor ()
      ensures table == map[] && commits == []
    {
      table, commits := map[], [];
      row := Fresh("");
    }

    /** `_transition` and `_log_step`: change the session copy only. */
    method MoveTo(to: SagaState, name: StepName, kind: StepKind)
      modifies this`row
      ensures row == Transition(old(row), to, name, kind)
    {
      var oldState := row.state;
      row := row.(state := to);
      row := row.(steps := row.steps + [Step(name, oldState, to, kind)]);
    }

    /** `session.commit()` of a saga that already owns its row. */
    method Commit(ghost before: Row, ghost goal: Goal)
      requires OnTrack(table, commits, before, goal)
      requires row == Advance(before, Heard(before.state, goal.script)) && row != before && row.orderId == before.orderId
      modifies this`table, this`commits
      ensures table == old(table)[row.orderId := row] && commits == old(commits) + [row]
      ensures OnTrack(table, commits, row, goal)
    {
      TrackStep(table, commits, before, row, goal);
      table := table[row.orderId := row];
      commits := commits + [row];
    }

    /** Drives one order to the end. A second saga for the same order fails on the unique column at its first
        commit, before any call is made, and changes nothing; otherwise the committed rows are exactly the
        iterated single-commit transitions, and the result is the row that the table then holds and that the answers
        of the calls determine. */
    method StartSaga(orderId: Id, script: Script) returns (result: Option<Row>)
      modifies this
      ensures orderId in old(table) ==> result == None && table == old(table) && commits == old(commits)
      ensures orderId !in old(table) ==>
        var r := Started(orderId);
        && commits == old(commits) + [r] + Rest(r, script)
        && table == old(table)[orderId := Last(r, script)]
        && result == Some(Last(r, script)) == Some(FinalRow(orderId, script))
    {
      OutcomeIs(orderId, script);
      row := Fresh(orderId);
      MoveTo(PaymentPending, SagaStarted, Forward);
      if orderId in table {
        return None;
      }
      table := table[orderId := row];
      commits := commits + [row];
      ghost var goal := Goal(old(table), script, commits + Rest(row, script), Last(row, script));
      var last := Authorize(script, goal);
      result := Some(last);
    }

    /** Step 1: a raised or declined authorization cancels at once, in a single commit. */
    method Authorize(script: Script, ghost goal: Goal) returns (result: Row)
      requires row.state == PaymentPending
      requires goal.script == script && OnTrack(table, commits, row, goal)
      modifies this
      ensures commits == goal.plan && result == goal.end && table == goal.base[old(row).orderId := goal.end]
    {
      ghost var before := row;
      if script.auth.Raise? {
        MoveTo(PaymentFailed, PaymentError, Forward);
        MoveTo(Cancelled, CancelledPaymentError, Forward);
        row := row.(completed := true);
        Commit(before, goal);
        TrackEnd(table, commits, row, goal);
        return row;
      }
      var pay := script.auth.value;
      if !(pay.PaymentBody? && pay.paymentStatus == Authorized) {
        MoveTo(PaymentFailed, PaymentDeclined, Forward);
        MoveTo(Cancelled, CancelledPaymentDeclined, Forward);
        row := row.(completed := true);
        Commit(before, goal);
        TrackEnd(table, commits, row, goal);
        return row;
      }
      row := row.(paymentId := Some(pay.paymentId));
      MoveTo(PaymentOk, PaymentAuthorized, Forward);
      Commit(before, goal);
      result := ReserveInventory(script, goal);
    }

    /** Step 2: a raised or unsuccessful reservation starts the compensation. */
    method ReserveInventory(script: Script, ghost goal: Goal) returns (result: Row)
      requires row.state == PaymentOk
      requires goal.script == script && OnTrack(table, commits, row, goal)
      modifies this
      ensures commits == goal.plan && result == goal.end && table == goal.base[old(row).orderId := goal.end]
    {
      ghost var before := row;
      MoveTo(InventoryPending, InventoryReserveStart, Forward);
      Commit(before, goal);

      before := row;
      if script.reserve.Raise? {
        MoveTo(InventoryFailed, InventoryError, Forward);
        Commit(before, goal);
        result := RunCompensation(script, goal);
        return;
      }
      var inv := script.reserve.value;
      if !(inv.ReservationBody? && inv.reservationStatus == Reserved) {
        MoveTo(InventoryFailed, InventoryOutOfStock, Forward);
        Commit(before, goal);
        result := RunCompensation(script, goal);
        return;
      }
      row := row.(reservationId := Some(inv.reservationId));
      MoveTo(InventoryOk, InventoryReserved, Forward);
      Commit(before, goal);
      result := RequestEta(script, goal);
    }

    /** Step 3: the estimate decides only between CONFIRMED and CONFIRMED_DEGRADED. */
    method RequestEta(script: Script, ghost goal: Goal) returns (result: Row)
      requires row.state == InventoryOk
      requires goal.script == script && OnTrack(table, commits, row, goal)
      modifies this
      ensures commits == goal.plan && result == goal.end && table == goal.base[old(row).orderId := goal.end]
    {
      ghost var before := row;
      MoveTo(EtaPending, EtaRequestStart, Forward);
      Commit(before, goal);

      before := row;
      var isDegraded := true;
      if script.eta.EtaReply? && script.eta.minutes.Some? {
        isDegraded := GetOr(script.eta.degraded, false);
      }
      if script.eta.EtaReply? && !isDegraded {
        row := row.(eta := Some(Eta(script.eta.minutes.value, script.eta.lower, script.eta.upper)), degraded := false);
        MoveTo(Confirmed, EtaReceivedConfirmed, Forward);
      } else {
        row := row.(eta := Some(Eta(32.0, Some(25.0), Some(40.0))), degraded := true);
        if script.eta.EtaReply? && isDegraded {
          row := row.(eta := Some(Eta(GetOr(script.eta.minutes, 32.0),
                                      OrElse(script.eta.lower, 25.0), OrElse(script.eta.upper, 40.0))));
        }
        MoveTo(ConfirmedDegraded, EtaDegradedConfirmed, Forward);
      }
      row := row.(completed := true);
      Commit(before, goal);
      TrackEnd(table, commits, row, goal);
      result := row;
    }

    /** `_compensate`: refund, then cancel; a refund that raises leaves the saga for manual review. */
    method RunCompensation(script: Script, ghost goal: Goal) returns (result: Row)
      requires row.state == InventoryFailed
      requires goal.script == script && OnTrack(table, commits, row, goal)
      modifies this
      ensures commits == goal.plan && result == goal.end && table == goal.base[old(row).orderId := goal.end]
    {
      ghost var before := row;
      if row.paymentId.Some? {
        MoveTo(Refunding, CompensateRefundStart, Compensate);
        Commit(before, goal);
        before := row;
        if script.refund.Raise? {
          MoveTo(ManualReview, CompensateRefundFailed, Compensate);
          row := row.(completed := true);
          Commit(before, goal);
          TrackEnd(table, commits, row, goal);
          return row;
        }
        var refund := script.refund.value;
        row := row.(refundId := if refund.PaymentBody? then Some(refund.paymentId) else None);
        MoveTo(RefundedState, CompensateRefundDone, Compensate);
      }
      MoveTo(Cancelled, SagaCancelled, Compensate);
      row := row.(completed := true);
      Commit(before, goal);
      TrackEnd(table, commits, row, goal);
      result := row;
    }
  }
}
