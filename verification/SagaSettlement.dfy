/** What the state of a saga says about the money and the stock, in every run. */
module SagaSettlement {
  import opened SagaRow
  import opened Stock
  import opened SagaProtocol
  import opened SagaInvariant
  import opened SagaSteps

  /** Calls that took effect at the service and were reported to the orchestrator as errors. */
  datatype Losses = Losses(authorize: bool, reserve: bool, refund: bool)

  function LossesOf(g: Saga): Losses {
    Losses(Charge(g).Some? && g.auth.caller.Errored?,
           Holding(g) && g.reserve.caller.Errored?,
           Repaid(g) && g.refund.caller.Errored?)
  }

  const NoLoss := Losses(false, false, false)

  predicate IsConfirmed(s: SagaState) {
    s.Confirmed? || s.ConfirmedDegraded?
  }

  /** The balance an order must end with, given only its final state and its losses. */
  function FinalNet(s: SagaState, lost: Losses, amount: int): int {
    if IsConfirmed(s) then amount
    else if s.Cancelled? then (if lost.authorize then amount else 0)
    else (if lost.refund then 0 else amount)
  }

  /** The number of reservations an order must end with. */
  function FinalHolds(s: SagaState, lost: Losses): nat {
    if IsConfirmed(s) || lost.reserve then 1 else 0
  }

  ghost predicate Reachable(s: System, initial: map<Item, int>) {
    exists actions :: s == Run(Initial(initial), actions)
  }

  lemma {:induction false} ReachableInv(s: System, initial: map<Item, int>)
    requires Reachable(s, initial)
    ensures Inv(s, initial)
  {
    var actions :| s == Run(Initial(initial), actions);
    RunKeepsInv(initial, actions);
  }

  /** What the invariant says about one saga. */
  lemma {:induction false} AboutSaga(s: System, initial: map<Item, int>, i: nat)
    requires Reachable(s, initial) && i < |s.sagas|
    ensures SagaOk(s.sagas[i])
    ensures Net(s.ledger, s.sagas[i].row.orderId) == Balance(s.sagas[i])
    ensures HoldsOf(s.holds, s.sagas[i].row.orderId) == if Holding(s.sagas[i]) then 1 else 0
    ensures Charge(s.sagas[i]).Some? ==> Recorded(s.ledger, Charge(s.sagas[i]).value, s.sagas[i].amount)
  {
    ReachableInv(s, initial);
  }

  // ----- Settlement -----

  /** The final state and the losses of one saga determine what it brought about. */
  lemma {:induction false} FinalEffects(g: Saga)
    requires CallsOk(g) && Terminal(g.row.state)
    ensures Balance(g) == FinalNet(g.row.state, LossesOf(g), g.amount)
    ensures Holding(g) == (FinalHolds(g.row.state, LossesOf(g)) == 1)
    ensures !g.row.state.Cancelled? ==> g.amount > 0
  {
    match g.row.state
    case Cancelled =>
    case ManualReview =>
    case _ =>
  }

  /** In every run, the final state of a saga and its losses determine its order's balance and reservations. */
  lemma {:induction false} SettlementUnderLoss(s: System, initial: map<Item, int>, i: nat)
    requires Reachable(s, initial) && i < |s.sagas| && Terminal(s.sagas[i].row.state)
    ensures var g := s.sagas[i];
      && Net(s.ledger, g.row.orderId) == FinalNet(g.row.state, LossesOf(g), g.amount)
      && HoldsOf(s.holds, g.row.orderId) == FinalHolds(g.row.state, LossesOf(g))
  {
    AboutSaga(s, initial, i);
    FinalEffects(s.sagas[i]);
  }

  /** Without losses each outcome is exactly one combination of money and stock. */
  lemma {:induction false} Settlement(s: System, initial: map<Item, int>, i: nat)
    requires Reachable(s, initial) && i < |s.sagas| && Terminal(s.sagas[i].row.state)
    requires LossesOf(s.sagas[i]) == NoLoss
    ensures var g := s.sagas[i];
      var net, holds := Net(s.ledger, g.row.orderId), HoldsOf(s.holds, g.row.orderId);
      && (IsConfirmed(g.row.state) <==> net == g.amount && holds == 1)
      && (g.row.state.Cancelled? <==> net == 0 && holds == 0)
      && (g.row.state.ManualReview? <==> net == g.amount > 0 && holds == 0)
  {
    SettlementUnderLoss(s, initial, i);
    AboutSaga(s, initial, i);
    FinalEffects(s.sagas[i]);
  }

  /** A saga that is cancelled or left for review with something else than its state says, lost a response. */
  lemma {:induction false} ResidueNeedsLoss(s: System, initial: map<Item, int>, i: nat)
    requires Reachable(s, initial) && i < |s.sagas|
    ensures var g := s.sagas[i];
      var net, holds := Net(s.ledger, g.row.orderId), HoldsOf(s.holds, g.row.orderId);
      && (g.row.state.Cancelled? && net != 0 ==> LossesOf(g).authorize && net == g.amount && holds == 0)
      && (g.row.state.Cancelled? && holds != 0 ==> LossesOf(g).reserve && net == 0)
      && (g.row.state.ManualReview? && net == 0 ==> LossesOf(g).refund)
  {
    var g := s.sagas[i];
    if Terminal(g.row.state) {
      SettlementUnderLoss(s, initial, i);
      AboutSaga(s, initial, i);
      FinalEffects(g);
      if g.row.state.Cancelled? { OneResidue(g); }
    }
  }

  lemma {:induction false} OneResidue(g: Saga)
    requires CallsOk(g) && g.row.state.Cancelled?
    ensures !(LossesOf(g).authorize && LossesOf(g).reserve)
  {
  }

  // ----- Stock -----

  /** Units of the sagas that are confirmed or whose reservation was lost. */
  function UnitsOwed(sagas: seq<Saga>, item: Item): nat {
    if sagas == [] then 0
    else
      var g := sagas[|sagas| - 1];
      UnitsOwed(sagas[..|sagas| - 1], item)
      + (if IsConfirmed(g.row.state) || LossesOf(g).reserve then Units(g.items, item) else 0)
  }

  function UnitsConfirmed(sagas: seq<Saga>, item: Item): nat {
    if sagas == [] then 0
    else
      var g := sagas[|sagas| - 1];
      UnitsConfirmed(sagas[..|sagas| - 1], item) + (if IsConfirmed(g.row.state) then Units(g.items, item) else 0)
  }

  lemma {:induction false} HeldIsOwed(sagas: seq<Saga>, item: Item)
    requires forall i :: 0 <= i < |sagas| ==> CallsOk(sagas[i]) && Terminal(sagas[i].row.state)
    ensures UnitsOfSagas(sagas, item) == UnitsOwed(sagas, item)
  {
    if sagas != [] {
      var n := |sagas| - 1;
      HeldIsOwed(sagas[..n], item);
      FinalEffects(sagas[n]);
    }
  }

  lemma {:induction false} OwedIsConfirmed(sagas: seq<Saga>, item: Item)
    requires forall i :: 0 <= i < |sagas| ==> !LossesOf(sagas[i]).reserve
    ensures UnitsOwed(sagas, item) == UnitsConfirmed(sagas, item)
  {
    if sagas != [] { OwedIsConfirmed(sagas[..|sagas| - 1], item); }
  }

  /** Once all sagas have terminated, the stock has been reduced by the confirmed orders and the lost reservations;
      with no reservation lost, by the confirmed orders alone. */
  lemma {:induction false} QuiescentStock(s: System, initial: map<Item, int>, item: Item)
    requires Reachable(s, initial) && item in initial
    requires forall i :: 0 <= i < |s.sagas| ==> Terminal(s.sagas[i].row.state)
    ensures item in s.stock && s.stock[item] == initial[item] - UnitsOwed(s.sagas, item)
    ensures (forall i :: 0 <= i < |s.sagas| ==> !LossesOf(s.sagas[i]).reserve) ==>
      s.stock[item] == initial[item] - UnitsConfirmed(s.sagas, item)
  {
    ReachableInv(s, initial);
    forall i | 0 <= i < |s.sagas| ensures CallsOk(s.sagas[i]) {
      assert SagaOk(s.sagas[i]);
    }
    HeldIsOwed(s.sagas, item);
    if forall i :: 0 <= i < |s.sagas| ==> !LossesOf(s.sagas[i]).reserve {
      OwedIsConfirmed(s.sagas, item);
    }
  }

  // ----- One charge, one refund, one reservation -----

  predicate SameKind(a: Key, b: Key) {
    (a.AuthorizeKey? && b.AuthorizeKey?) || (a.ReserveKey? && b.ReserveKey?) || (a.RefundKey? && b.RefundKey?)
  }

  /** However often `start_saga` is called for an order, no two requests of the same kind for it are ever sent, and
      no two ledger rows of the same kind exist. */
  lemma {:induction false} SingleCharge(s: System, initial: map<Item, int>)
    requires Reachable(s, initial)
    ensures forall k :: 0 <= k < |s.wire| ==> s.wire[k].saga < |s.sagas|
    ensures forall j, k :: 0 <= j < k < |s.wire| ==>
      (s.sagas[s.wire[j].saga].row.orderId == s.sagas[s.wire[k].saga].row.orderId ==> !SameKind(s.wire[j], s.wire[k]))
    ensures forall j, k :: 0 <= j < k < |s.ledger| ==>
      (s.ledger[j].orderId == s.ledger[k].orderId ==> !SameKind(s.ledger[j].key, s.ledger[k].key))
  {
    ReachableInv(s, initial);
    forall j, k | 0 <= j < k < |s.ledger| && s.ledger[j].orderId == s.ledger[k].orderId
      ensures s.ledger[j].key.saga == s.ledger[k].key.saga
    {
      assert OwnedBy(s.sagas, s.ledger[j].key, s.ledger[j].orderId);
      assert OwnedBy(s.sagas, s.ledger[k].key, s.ledger[k].orderId);
    }
  }

  /** No request leaves before the commit of its pending state. */
  lemma {:induction false} CallAfterCommit(s: System, initial: map<Item, int>, k: nat)
    requires Reachable(s, initial) && k < |s.wire|
    ensures s.wire[k].saga < |s.sagas|
    ensures var steps := s.sagas[s.wire[k].saga].row.steps;
      match s.wire[k]
      case AuthorizeKey(_) => Visits(steps, PaymentPending)
      case ReserveKey(_) => Visits(steps, InventoryPending)
      case RefundKey(_) => Visits(steps, SagaState.Refunding)
  {
    ReachableInv(s, initial);
    assert SagaOk(s.sagas[s.wire[k].saga]);
  }

  /** The refund endpoint never answers a saga with its 404, so REFUNDED in a log always means that a refund was made
      and that the order nets to zero. */
  lemma {:induction false} RefundIsNeverMissing(s: System, initial: map<Item, int>, i: nat)
    requires Reachable(s, initial) && i < |s.sagas|
    ensures var g := s.sagas[i];
      && (g.refund.service.Done? ==> g.refund.service.response.status != 404)
      && (Visits(g.row.steps, RefundedState) ==> Repaid(g) && Net(s.ledger, g.row.orderId) == 0)
  {
    AboutSaga(s, initial, i);
  }

  // ----- Crashes -----

  /** A crash ends what the orchestrator does and nothing else: the row stays as committed whatever follows, while requests
      in flight may still be served. */
  lemma {:induction false} CrashStops(s: System, i: nat, a: Action)
    requires i < |s.sagas|
    ensures var s' := Next(s, Crash(i));
      && s'.ledger == s.ledger && s'.holds == s.holds && s'.stock == s.stock && s'.wire == s.wire
      && |s'.sagas| == |s.sagas| && s'.sagas[i] == s.sagas[i].(live := false)
    ensures !s.sagas[i].live ==>
      i < |Next(s, a).sagas| && Next(s, a).sagas[i].row == s.sagas[i].row && !Next(s, a).sagas[i].live
      && (a.Send? && a.saga == i ==> Next(s, a).wire == s.wire)
  {
  }

  /** The durable row leaves the charge or the refund open: the balance is nothing or the amount. */
  predicate BalanceOpen(r: Row) {
    r.state.PaymentPending? || r.state.Refunding? || r.state.ManualReview?
    || (r.state.Cancelled? && Logged(r.steps, PaymentError))
  }

  /** The durable row leaves the reservation open. */
  predicate HoldOpen(r: Row) {
    r.state.InventoryPending? || Logged(r.steps, InventoryError)
  }

  /** The balance according to the durable row, where it is not open. */
  function CertainNet(r: Row, amount: int): int {
    if r.state.Cancelled? then 0 else amount
  }

  /** The number of reservations according to the durable row, where it is not open. */
  function CertainHolds(r: Row): nat {
    if r.state.InventoryOk? || r.state.EtaPending? || IsConfirmed(r.state) then 1 else 0
  }

  /** At every point of every run the durable row alone, that is state and step log, says what is certain: the balance
      except while a charge or a refund is pending, after a payment error and in manual review, and the reservation except
      while it is pending and after an inventory error. A decline or an OUT_OF_STOCK on record is final. */
  lemma {:induction false} CrashRecoverability(s: System, initial: map<Item, int>, i: nat)
    requires Reachable(s, initial) && i < |s.sagas|
    ensures var g := s.sagas[i];
      var net, holds := Net(s.ledger, g.row.orderId), HoldsOf(s.holds, g.row.orderId);
      && (if BalanceOpen(g.row) then net == 0 || net == g.amount else net == CertainNet(g.row, g.amount))
      && (if HoldOpen(g.row) then holds <= 1 else holds == CertainHolds(g.row))
      && (Logged(g.row.steps, PaymentDeclined) ==> g.row.state.Cancelled? && net == 0 && holds == 0)
      && (Logged(g.row.steps, PaymentError) ==> g.row.state.Cancelled? && holds == 0)
      && (Logged(g.row.steps, InventoryOutOfStock) ==> holds == 0)
    ensures var g := s.sagas[i];
      g.row.state.Refunding? ==> g.row.paymentId.Some? && Recorded(s.ledger, g.row.paymentId.value, g.amount)
  {
    AboutSaga(s, initial, i);
    RowSaysEnough(s.sagas[i]);
  }

  /** The same on one saga. */
  lemma {:induction false} RowSaysEnough(g: Saga)
    requires SagaOk(g)
    ensures if BalanceOpen(g.row) then Balance(g) == 0 || Balance(g) == g.amount else Balance(g) == CertainNet(g.row, g.amount)
    ensures !HoldOpen(g.row) ==> Holding(g) == (CertainHolds(g.row) == 1)
    ensures Logged(g.row.steps, PaymentDeclined) ==> g.row.state.Cancelled? && Balance(g) == 0 && !Holding(g)
    ensures Logged(g.row.steps, PaymentError) ==> g.row.state.Cancelled? && !Holding(g)
    ensures Logged(g.row.steps, InventoryOutOfStock) ==> !Holding(g)
    ensures g.row.state.Refunding? ==> Charge(g).Some? && g.row.paymentId == Charge(g)
  {
  }

  lemma {:induction false} ReachableNext(s: System, initial: map<Item, int>, a: Action)
    requires Reachable(s, initial)
    ensures Reachable(Next(s, a), initial)
  {
    var actions :| s == Run(Initial(initial), actions);
    assert (actions + [a])[..|actions|] == actions;
    assert Next(s, a) == Run(Initial(initial), actions + [a]);
  }

  /** The request of a saga that is waiting for it, where the service would grant it with this new id. */
  predicate Grants(s: System, i: nat, a: Action) {
    i < |s.sagas| && var g := s.sagas[i];
    match a
    case ServeAuthorize(j, id, declined) =>
      j == i && g.auth.service.InFlight? && !declined && g.amount > 0 && !Taken(s.ledger, AuthorizeKey(i), id)
    case ServeReserve(j, id) =>
      j == i && g.reserve.service.InFlight? && g.items != [] && Available(s.stock, g.items)
      && !HoldTaken(s.holds, ReserveKey(i), id)
    case ServeRefund(j, id) => j == i && g.refund.service.InFlight? && !Taken(s.ledger, RefundKey(i), id)
    case _ => false
  }

  /** The doubt is real: while a request is in flight, two reachable states with the same durable row differ in exactly
      the effect in doubt. */
  lemma {:induction false} DoubtIsReal(s: System, initial: map<Item, int>, i: nat, a: Action)
    requires Reachable(s, initial) && Grants(s, i, a)
    ensures Reachable(Next(s, a), initial)
    ensures i < |Next(s, a).sagas| && Next(s, a).sagas[i].row == s.sagas[i].row
    ensures var g, s' := s.sagas[i], Next(s, a);
      var order := g.row.orderId;
      && Net(s'.ledger, order) - Net(s.ledger, order)
         == (if a.ServeAuthorize? then g.amount else if a.ServeRefund? then -g.amount else 0)
      && HoldsOf(s'.holds, order) - HoldsOf(s.holds, order) == (if a.ServeReserve? then 1 else 0)
  {
    ReachableNext(s, initial, a);
    ReachableInv(s, initial);
    ReachableInv(Next(s, a), initial);
    if a.ServeRefund? {
      var k := RefundFindsCharge(s, i, initial);
      RefundUnfolds(s, i, k, a.refundId);
    }
    GrantEffect(s, i, a);
  }

  lemma {:induction false} GrantEffect(s: System, i: nat, a: Action)
    requires Grants(s, i, a)
    requires a.ServeRefund? ==> s.sagas[i].row.paymentId.Some? && Find(s.ledger, s.sagas[i].row.paymentId.value).Some?
    ensures var g := s.sagas[i]; i < |Next(s, a).sagas| && var g' := Next(s, a).sagas[i];
      && g'.row == g.row && g'.amount == g.amount
      && Balance(g') - Balance(g) == (if a.ServeAuthorize? then g.amount else if a.ServeRefund? then -g.amount else 0)
      && Holding(g') == (a.ServeReserve? || Holding(g)) && (a.ServeReserve? ==> !Holding(g))
  {
  }

  // ----- The log -----

  /** At every point of every run the stored log is a short chain in the acyclic graph that ends in the stored state,
      compensation is its suffix, and reaching the ETA step excludes cancellation. */
  lemma {:induction false} DurableLog(s: System, initial: map<Item, int>, i: nat)
    requires Reachable(s, initial) && i < |s.sagas|
    ensures var r := s.sagas[i].row;
      && Chain(r.steps) && EndOf(r.steps) == r.state && 1 <= |r.steps| <= 7
      && CompensationIsSuffix(r.steps)
      && (Visits(r.steps, EtaPending) ==> !Visits(r.steps, Cancelled) && (r.state.EtaPending? || IsConfirmed(r.state)))
  {
    AboutSaga(s, initial, i);
    GoodRowSays(s.sagas[i].row);
  }

  lemma {:induction false} GoodRowSays(r: Row)
    requires GoodRow(r)
    ensures Chain(r.steps) && EndOf(r.steps) == r.state && 1 <= |r.steps| <= 7 && CompensationIsSuffix(r.steps)
    ensures Visits(r.steps, EtaPending) ==> !Visits(r.steps, Cancelled) && (r.state.EtaPending? || IsConfirmed(r.state))
  {
    ChainIsShort(r.steps);
    if Visits(r.steps, EtaPending) { EtaNeverCancels(r.steps); }
  }
}
