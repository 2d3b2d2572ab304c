/** Runs that show that every loss and every doubt occurs: for any order, amount, list of items and stock that admits it. */
module SagaWitness {
  import opened Common
  import opened HttpAdapters
  import opened SagaRow
  import opened Stock
  import opened SagaProtocol
  import opened SagaSteps
  import opened SagaSettlement

  /** A reachable state with one saga, before any reservation. */
  ghost predicate Stage(s: System, initial: map<Item, int>, g: Saga, ledger: seq<Payment>) {
    Reachable(s, initial) && s.sagas == [g] && s.ledger == ledger && s.holds == [] && s.stock == initial
  }

  /** An action of the orchestrator, at a stage. */
  lemma {:induction false} Act(s: System, initial: map<Item, int>, g: Saga, ledger: seq<Payment>, a: Action, g': Saga)
    requires Stage(s, initial, g, ledger) && !a.Start? && !IsServe(a) && SagaOf(a) == 0 && Local(g, a) == g'
    ensures Stage(Next(s, a), initial, g', ledger)
  {
    ReachableNext(s, initial, a);
  }

  const InFlightCall := Call(InFlight, Waiting)

  function Opened(order: Id, items: seq<Item>, amount: int): Saga {
    Saga(Started(order), items, amount, true, InFlightCall, Idle, Idle)
  }

  /** A saga whose authorization is in flight. */
  lemma {:induction false} Opening(initial: map<Item, int>, order: Id, items: seq<Item>, amount: int) returns (s: System)
    ensures Stage(s, initial, Opened(order, items, amount), [])
  {
    var s0 := Initial(initial);
    assert s0 == Run(Initial(initial), []);
    var start := Start(order, items, amount);
    var g := Saga(Started(order), items, amount, true, Idle, Idle, Idle);
    ReachableNext(s0, initial, start);
    var s1 := Next(s0, start);
    assert s1.sagas == [g];
    Act(s1, initial, g, [], Send(0), Opened(order, items, amount));
    s := Next(s1, Send(0));
  }

  function PaidCall(id: Id, caller: Caller): Call {
    Call(Done(Response(200, PaymentBody(id, Authorized))), caller)
  }

  function Charged(order: Id, items: seq<Item>, amount: int, id: Id): Saga {
    Opened(order, items, amount).(auth := PaidCall(id, Waiting))
  }

  function ChargeRow(order: Id, amount: int, id: Id): Payment {
    Payment(id, order, amount, Authorized, AuthorizeKey(0))
  }

  /** The charge is committed and not yet heard of. */
  lemma {:induction false} Charging(initial: map<Item, int>, order: Id, items: seq<Item>, amount: int, id: Id) returns (s: System)
    requires amount > 0
    ensures Stage(s, initial, Charged(order, items, amount, id), [ChargeRow(order, amount, id)])
  {
    var s0 := Opening(initial, order, items, amount);
    var a := ServeAuthorize(0, id, false);
    ReachableNext(s0, initial, a);
    NextServes(s0, a);
    assert !Taken(s0.ledger, AuthorizeKey(0), id);
    s := Next(s0, a);
    assert s.ledger == [ChargeRow(order, amount, id)];
  }

  /** CANCELLED with a charge: the authorization was committed and its response lost. */
  lemma {:induction false} CancelledButCharged(initial: map<Item, int>, order: Id, items: seq<Item>, amount: int, id: Id)
    returns (s: System)
    requires amount > 0
    ensures Reachable(s, initial) && |s.sagas| == 1 && s.sagas[0].row.orderId == order
    ensures s.sagas[0].row.state.Cancelled? && LossesOf(s.sagas[0]).authorize
    ensures Net(s.ledger, order) == amount && HoldsOf(s.holds, order) == 0
  {
    var s0 := Charging(initial, order, items, amount, id);
    var g, ledger := Charged(order, items, amount, id), [ChargeRow(order, amount, id)];
    var g' := g.(auth := PaidCall(id, Errored), row := AfterAuthorize(g.row, Raise));
    Act(s0, initial, g, ledger, TimeOut(0), g');
    s := Next(s0, TimeOut(0));
    AboutSaga(s, initial, 0);
  }

  // ----- A saga that waits for its refund while its reservation is still in flight -----

  function RowPaid(order: Id, id: Id): Row {
    AfterAuthorize(Started(order), Return(PaymentBody(id, Authorized)))
  }

  function RowRefunding(order: Id, id: Id): Row {
    Advance(AfterReserve(Advance(RowPaid(order, id), Continue), Raise), Continue)
  }

  lemma {:induction false} RowStates(order: Id, id: Id)
    ensures RowPaid(order, id).state.PaymentOk? && Advance(RowPaid(order, id), Continue).state.InventoryPending?
    ensures AfterReserve(Advance(RowPaid(order, id), Continue), Raise).state.InventoryFailed?
    ensures RowPaid(order, id).paymentId == Some(id) && RowRefunding(order, id).state.Refunding?
    ensures RowRefunding(order, id).paymentId == Some(id) && RowRefunding(order, id).orderId == order
    ensures Logged(RowRefunding(order, id).steps, InventoryError)
  {
    var r := AfterReserve(Advance(RowPaid(order, id), Continue), Raise);
    assert r.paymentId == Some(id);
    var n := |RowPaid(order, id).steps|;
    assert RowRefunding(order, id).steps[n + 1].name == InventoryError;
  }

  /** Heard of the charge, and waiting for the reservation. */
  function Reserving(order: Id, items: seq<Item>, amount: int, id: Id): Saga {
    Saga(Advance(RowPaid(order, id), Continue), items, amount, true, PaidCall(id, Answered), InFlightCall, Idle)
  }

  lemma {:induction false} ToReserving(initial: map<Item, int>, order: Id, items: seq<Item>, amount: int, id: Id)
    returns (s: System)
    requires amount > 0
    ensures Stage(s, initial, Reserving(order, items, amount, id), [ChargeRow(order, amount, id)])
  {
    RowStates(order, id);
    var ledger := [ChargeRow(order, amount, id)];
    var g0 := Charged(order, items, amount, id);
    var g1 := g0.(auth := PaidCall(id, Answered), row := RowPaid(order, id));
    var g2 := g1.(row := Advance(RowPaid(order, id), Continue));
    s := Charging(initial, order, items, amount, id);
    Act(s, initial, g0, ledger, Hear(0), g1);
    s := Next(s, Hear(0));
    Act(s, initial, g1, ledger, Proceed(0), g2);
    s := Next(s, Proceed(0));
    Act(s, initial, g2, ledger, Send(0), Reserving(order, items, amount, id));
    s := Next(s, Send(0));
  }

  /** Both the reservation and the refund are in flight. */
  function Torn(order: Id, items: seq<Item>, amount: int, id: Id): Saga {
    Saga(RowRefunding(order, id), items, amount, true, PaidCall(id, Answered), Call(InFlight, Errored), InFlightCall)
  }

  lemma {:induction false} ToTorn(initial: map<Item, int>, order: Id, items: seq<Item>, amount: int, id: Id) returns (s: System)
    requires amount > 0
    ensures Stage(s, initial, Torn(order, items, amount, id), [ChargeRow(order, amount, id)])
  {
    RowStates(order, id);
    var ledger := [ChargeRow(order, amount, id)];
    var g0 := Reserving(order, items, amount, id);
    var g1 := g0.(reserve := Call(InFlight, Errored), row := AfterReserve(g0.row, Raise));
    var g2 := g1.(row := RowRefunding(order, id));
    s := ToReserving(initial, order, items, amount, id);
    Act(s, initial, g0, ledger, TimeOut(0), g1);
    s := Next(s, TimeOut(0));
    Act(s, initial, g1, ledger, Proceed(0), g2);
    s := Next(s, Proceed(0));
    Act(s, initial, g2, ledger, Send(0), Torn(order, items, amount, id));
    s := Next(s, Send(0));
  }

  predicate Has(s: System, order: Id, row: Row, net: int, holds: nat) {
    |s.sagas| == 1 && s.sagas[0].row == row && Net(s.ledger, order) == net && HoldsOf(s.holds, order) == holds
  }

  /** A request to serve, on one saga. */
  lemma {:induction false} Grant(s: System, initial: map<Item, int>, a: Action, net: int, holds: nat)
    requires Reachable(s, initial) && |s.sagas| == 1 && Grants(s, 0, a)
    requires Has(s, s.sagas[0].row.orderId, s.sagas[0].row, net, holds)
    ensures Reachable(Next(s, a), initial)
    ensures a.ServeRefund? ==> Has(Next(s, a), s.sagas[0].row.orderId, s.sagas[0].row, net - s.sagas[0].amount, holds)
    ensures a.ServeReserve? ==> Has(Next(s, a), s.sagas[0].row.orderId, s.sagas[0].row, net, holds + 1)
  {
    DoubtIsReal(s, initial, 0, a);
    NextServes(s, a);
  }

  lemma {:induction false} TornGrants(s: System, initial: map<Item, int>, order: Id, items: seq<Item>, amount: int, id: Id,
                                      hold: Action, refund: Action)
    requires Stage(s, initial, Torn(order, items, amount, id), [ChargeRow(order, amount, id)])
    requires items != [] && Available(initial, items)
    requires hold.ServeReserve? && hold.saga == 0 && refund.ServeRefund? && refund.saga == 0 && refund.refundId != id
    ensures Grants(s, 0, hold) && Grants(s, 0, refund) && Grants(Next(s, hold), 0, refund)
    ensures Has(s, order, RowRefunding(order, id), amount, 0)
    ensures Next(s, hold).sagas[0].amount == amount
  {
    RowStates(order, id);
    AboutSaga(s, initial, 0);
    NotTaken(s.ledger[0], refund.refundId);
    assert !HoldTaken(s.holds, ReserveKey(0), hold.reservationId);
    NextServes(s, hold);
    HoldKeepsRest(s, hold.reservationId);
  }

  lemma {:induction false} NotTaken(p: Payment, id: Id)
    requires p.key.AuthorizeKey? && p.paymentId != id
    ensures !Taken([p], RefundKey(0), id)
  {
  }

  lemma {:induction false} HoldKeepsRest(s: System, id: Id)
    requires |s.sagas| == 1
    ensures var s' := ReserveStock(s, 0, id);
      && s'.ledger == s.ledger && |s'.sagas| == 1
      && s'.sagas[0].refund == s.sagas[0].refund && s'.sagas[0].amount == s.sagas[0].amount
  {
  }

  /** After an inventory error both effects are in doubt at once: four reachable states with the same durable row, in
      REFUNDING, have each combination of charged or repaid and held or not. */
  lemma {:induction false} TwoDoubts(initial: map<Item, int>, order: Id, items: seq<Item>, amount: int, id: Id,
                                     refundId: Id, holdId: Id)
    returns (neither: System, repaid: System, held: System, both: System)
    requires amount > 0 && items != [] && Available(initial, items) && refundId != id
    ensures Reachable(neither, initial) && Reachable(repaid, initial) && Reachable(held, initial) && Reachable(both, initial)
    ensures var row := RowRefunding(order, id);
      && row.state.Refunding? && Logged(row.steps, InventoryError)
      && Has(neither, order, row, amount, 0) && Has(repaid, order, row, 0, 0)
      && Has(held, order, row, amount, 1) && Has(both, order, row, 0, 1)
  {
    RowStates(order, id);
    var hold, refund := ServeReserve(0, holdId), ServeRefund(0, refundId);
    neither := ToTorn(initial, order, items, amount, id);
    TornGrants(neither, initial, order, items, amount, id, hold, refund);
    Grant(neither, initial, hold, amount, 0);
    Grant(neither, initial, refund, amount, 0);
    held := Next(neither, hold);
    Grant(held, initial, refund, amount, 1);
    repaid, both := Next(neither, refund), Next(held, refund);
  }

  // ----- Residues of lost reservations and refunds -----

  function RepaidCall(id: Id, caller: Caller): Call {
    Call(Done(Response(200, PaymentBody(id, Refunded))), caller)
  }

  function RepaidLedger(order: Id, amount: int, id: Id, refundId: Id): seq<Payment> {
    [ChargeRow(order, amount, id).(status := Refunded), Payment(refundId, order, -amount, Refunded, RefundKey(0))]
  }

  /** The refund is committed and not yet heard of; the reservation is still in flight. */
  lemma {:induction false} ToRepaid(initial: map<Item, int>, order: Id, items: seq<Item>, amount: int, id: Id, refundId: Id)
    returns (s: System)
    requires amount > 0 && refundId != id
    ensures Stage(s, initial, Torn(order, items, amount, id).(refund := RepaidCall(refundId, Waiting)),
                  RepaidLedger(order, amount, id, refundId))
  {
    RowStates(order, id);
    var s0 := ToTorn(initial, order, items, amount, id);
    var a := ServeRefund(0, refundId);
    ReachableNext(s0, initial, a);
    NextServes(s0, a);
    var ledger := [ChargeRow(order, amount, id)];
    assert Find(ledger, id) == Some(0) by { assert ledger[..0] == [] && ledger[0].paymentId == id; }
    assert !Taken(ledger, RefundKey(0), refundId);
    RefundUnfolds(s0, 0, 0, refundId);
    s := Next(s0, a);
    RepayTorn(s0, order, items, amount, id, refundId);
  }

  lemma {:induction false} RepayTorn(s: System, order: Id, items: seq<Item>, amount: int, id: Id, refundId: Id)
    requires s.sagas == [Torn(order, items, amount, id)] && s.ledger == [ChargeRow(order, amount, id)]
    ensures var s' := Repay(s, 0, 0, refundId);
      && s'.ledger == RepaidLedger(order, amount, id, refundId) && s'.holds == s.holds && s'.stock == s.stock
      && s'.sagas == [Torn(order, items, amount, id).(refund := RepaidCall(refundId, Waiting))]
  {
    RowStates(order, id);
  }

  /** MANUAL_REVIEW with nothing charged: the refund was committed and its response lost. */
  lemma {:induction false} ReviewButRepaid(initial: map<Item, int>, order: Id, items: seq<Item>, amount: int, id: Id,
                                           refundId: Id)
    returns (s: System)
    requires amount > 0 && refundId != id
    ensures Reachable(s, initial) && |s.sagas| == 1 && s.sagas[0].row.orderId == order
    ensures s.sagas[0].row.state.ManualReview? && LossesOf(s.sagas[0]).refund
    ensures Net(s.ledger, order) == 0 && s.sagas[0].amount == amount
  {
    RowStates(order, id);
    var s0 := ToRepaid(initial, order, items, amount, id, refundId);
    var g := Torn(order, items, amount, id).(refund := RepaidCall(refundId, Waiting));
    var g' := g.(refund := RepaidCall(refundId, Errored), row := AfterRefund(g.row, Raise));
    Act(s0, initial, g, RepaidLedger(order, amount, id, refundId), TimeOut(0), g');
    s := Next(s0, TimeOut(0));
    AboutSaga(s, initial, 0);
  }

  /** CANCELLED, repaid, and the reservation still in flight. */
  lemma {:induction false} ToCancelled(initial: map<Item, int>, order: Id, items: seq<Item>, amount: int, id: Id, refundId: Id)
    returns (s: System, g: Saga)
    requires amount > 0 && refundId != id
    ensures Stage(s, initial, g, RepaidLedger(order, amount, id, refundId))
    ensures g.row.state.Cancelled? && g.row.orderId == order && g.items == items && g.amount == amount
    ensures g.reserve == Call(InFlight, Errored) && Balance(g) == 0
  {
    RowStates(order, id);
    var s0 := ToRepaid(initial, order, items, amount, id, refundId);
    var g0 := Torn(order, items, amount, id).(refund := RepaidCall(refundId, Waiting));
    g := g0.(refund := RepaidCall(refundId, Answered), row := AfterRefund(g0.row, Return(PaymentBody(refundId, Refunded))));
    Act(s0, initial, g0, RepaidLedger(order, amount, id, refundId), Hear(0), g);
    s := Next(s0, Hear(0));
  }

  /** CANCELLED with a hold: the reservation was committed after its caller had given up on it. */
  lemma {:induction false} CancelledButHeld(initial: map<Item, int>, order: Id, items: seq<Item>, amount: int, id: Id,
                                            refundId: Id, holdId: Id)
    returns (s: System)
    requires amount > 0 && items != [] && Available(initial, items) && refundId != id
    ensures Reachable(s, initial) && |s.sagas| == 1 && s.sagas[0].row.orderId == order
    ensures s.sagas[0].row.state.Cancelled? && LossesOf(s.sagas[0]).reserve
    ensures Net(s.ledger, order) == 0 && HoldsOf(s.holds, order) == 1
  {
    var s0, g := ToCancelled(initial, order, items, amount, id, refundId);
    var a := ServeReserve(0, holdId);
    AboutSaga(s0, initial, 0);
    assert !HoldTaken(s0.holds, ReserveKey(0), holdId);
    Grant(s0, initial, a, 0, 0);
    s := Next(s0, a);
    ResidueNeedsLoss(s, initial, 0);
  }
}
