/** What every reachable state of the saga protocol satisfies. */
module SagaInvariant {
  import opened Common
  import opened HttpAdapters
  import opened SagaRow
  import opened Stock
  import opened SagaProtocol

  // ----- One saga -----

  predicate Sane(c: Call) {
    && (c.caller.Unasked? <==> c.service.NotSent?)
    && (c.caller.Answered? ==> c.service.Done?)
  }

  predicate NotConcluded(c: Call) {
    c.caller.Unasked? || c.caller.Waiting?
  }

  /** Responses the services can give. The 404 of `refund_payment` is not among them. */
  predicate ResponsesOk(g: Saga) {
    && (g.auth.service.Done? ==>
          var r := g.auth.service.response;
          if r.status == 200 then r.body.PaymentBody? && r.body.paymentStatus != Refunded && g.amount > 0
          else (r.status == 422 || r.status == 500) && r.body == Detail)
    && (g.reserve.service.Done? ==>
          var r := g.reserve.service.response;
          if r.status == 200 then r.body.ReservationBody? else (r.status == 422 || r.status == 500) && r.body == Detail)
    && (g.refund.service.Done? ==>
          var r := g.refund.service.response;
          if r.status == 200 then r.body.PaymentBody? else r.status == 500 && r.body == Detail)
  }

  predicate Paid(g: Saga) {
    g.auth.caller.Answered? && Charge(g).Some? && Charge(g) == g.row.paymentId
  }

  predicate Unpaid(g: Saga) {
    g.auth.caller.Errored? || (g.auth.caller.Answered? && Charge(g).None?)
  }

  predicate ReserveFailed(g: Saga) {
    g.reserve.caller.Errored? || (g.reserve.caller.Answered? && !Holding(g))
  }

  /** What the durable state says about the three calls. */
  predicate CallsOk(g: Saga) {
    && Sane(g.auth) && Sane(g.reserve) && Sane(g.refund) && ResponsesOk(g)
    && match g.row.state {
         case PaymentPending => NotConcluded(g.auth) && g.reserve == Idle && g.refund == Idle
         case PaymentOk => Paid(g) && g.reserve == Idle && g.refund == Idle
         case InventoryPending => Paid(g) && NotConcluded(g.reserve) && g.refund == Idle
         case InventoryFailed => Paid(g) && ReserveFailed(g) && g.refund == Idle
         case Refunding => Paid(g) && ReserveFailed(g) && NotConcluded(g.refund)
         case ManualReview =>
           Paid(g) && ReserveFailed(g) && (g.refund.caller.Errored? || (g.refund.caller.Answered? && !Repaid(g)))
         case Cancelled =>
           || (Unpaid(g) && g.reserve == Idle && g.refund == Idle)
           || (Paid(g) && ReserveFailed(g) && g.refund.caller.Answered? && Repaid(g))
         case _ => Paid(g) && g.reserve.caller.Answered? && Holding(g) && g.refund == Idle
       }
  }

  /** A request on the wire was preceded by the commit of its pending state. */
  predicate PendingFirst(g: Saga) {
    && (g.auth != Idle ==> Visits(g.row.steps, PaymentPending))
    && (g.reserve != Idle ==> Visits(g.row.steps, InventoryPending))
    && (g.refund != Idle ==> Visits(g.row.steps, SagaState.Refunding))
  }

  /** The log says REFUNDED only if the refund call was answered, and then the saga is over. */
  predicate RefundAnswered(g: Saga) {
    Visits(g.row.steps, RefundedState) ==> g.row.state.Cancelled? && g.refund.caller.Answered?
  }

  predicate Granted(c: Call) {
    c.service.Done? && c.service.response.status == 200
  }

  predicate Excepted(c: Call) {
    c.caller.Errored? || (c.caller.Answered? && !Granted(c))
  }

  /** What the step names in the log say about the two forward calls. */
  predicate NamesOk(g: Saga) {
    PaymentNamesOk(g) && InventoryNamesOk(g)
  }

  predicate PaymentNamesOk(g: Saga) {
    && (Logged(g.row.steps, PaymentError) <==> Excepted(g.auth))
    && (Logged(g.row.steps, PaymentDeclined) <==> g.auth.caller.Answered? && Granted(g.auth) && Charge(g).None?)
  }

  predicate InventoryNamesOk(g: Saga) {
    && (Logged(g.row.steps, InventoryError) <==> Excepted(g.reserve))
    && (Logged(g.row.steps, InventoryOutOfStock) <==> g.reserve.caller.Answered? && Granted(g.reserve) && !Holding(g))
  }

  ghost predicate SagaOk(g: Saga) {
    GoodRow(g.row) && CallsOk(g) && PendingFirst(g) && RefundAnswered(g) && NamesOk(g)
  }

  lemma {:induction false} VisitsGrows(r: Row, i: Input, s: SagaState)
    requires Visits(r.steps, s)
    ensures Visits(Advance(r, i).steps, s)
  {
    var k :| 0 <= k < |r.steps| && r.steps[k].to == s;
    AdvanceExtends(r, i, k);
    assert Advance(r, i).steps[k].to == s;
  }

  /** A local action either leaves the row alone or commits once. */
  lemma {:induction false} LocalRow(g: Saga, a: Action)
    ensures Local(g, a).row == (if Learns(g, a).Some? then Advance(g.row, Learns(g, a).value) else g.row)
  {
  }

  lemma {:induction false} LocalKeepsRow(g: Saga, a: Action)
    requires GoodRow(g.row)
    ensures GoodRow(Local(g, a).row)
  {
    LocalRow(g, a);
    if Learns(g, a).Some? { AdvanceKeepsRow(g.row, Learns(g, a).value); }
  }

  lemma {:induction false} LocalKeepsPending(g: Saga, a: Action)
    requires PendingFirst(g) && g.row.steps != [] && g.row.steps[|g.row.steps| - 1].to == g.row.state
    ensures PendingFirst(Local(g, a))
  {
    if Learns(g, a).Some? {
      var i := Learns(g, a).value;
      LocalRow(g, a);
      if g.auth != Idle { VisitsGrows(g.row, i, PaymentPending); }
      if g.reserve != Idle { VisitsGrows(g.row, i, InventoryPending); }
      if g.refund != Idle { VisitsGrows(g.row, i, SagaState.Refunding); }
    }
  }

  lemma {:induction false} LocalKeepsRefund(g: Saga, a: Action)
    requires RefundAnswered(g)
    ensures RefundAnswered(Local(g, a))
  {
    LocalRow(g, a);
    if Learns(g, a).Some? && Visits(Local(g, a).row.steps, RefundedState) {
      AdvanceRefunds(g.row, Learns(g, a).value);
    }
  }

  /** What a saga learns is put on record under the right name. */
  lemma {:induction false} LearnKeepsPaymentNames(g: Saga, a: Action)
    requires CallsOk(g) && PaymentNamesOk(g) && Learns(g, a).Some?
    ensures PaymentNamesOk(Local(g, a))
  {
    var i := Learns(g, a).value;
    LocalRow(g, a);
    AdvanceLogs(g.row, i, PaymentError);
    AdvanceLogs(g.row, i, PaymentDeclined);
  }

  lemma {:induction false} LearnKeepsInventoryNames(g: Saga, a: Action)
    requires CallsOk(g) && InventoryNamesOk(g) && Learns(g, a).Some?
    ensures InventoryNamesOk(Local(g, a))
  {
    var i := Learns(g, a).value;
    LocalRow(g, a);
    AdvanceLogs(g.row, i, InventoryError);
    AdvanceLogs(g.row, i, InventoryOutOfStock);
  }

  lemma {:induction false} LocalKeepsNames(g: Saga, a: Action)
    requires CallsOk(g) && NamesOk(g)
    ensures NamesOk(Local(g, a))
  {
    if Learns(g, a).Some? {
      LearnKeepsPaymentNames(g, a);
      LearnKeepsInventoryNames(g, a);
    } else {
      IdleKeepsNames(g, a);
    }
  }

  lemma {:induction false} IdleKeepsNames(g: Saga, a: Action)
    requires CallsOk(g) && NamesOk(g) && Learns(g, a).None?
    ensures NamesOk(Local(g, a))
  {
    LocalRow(g, a);
    var g' := Local(g, a);
    assert Excepted(g'.auth) <==> Excepted(g.auth);
    assert Excepted(g'.reserve) <==> Excepted(g.reserve);
  }

  lemma {:induction false} HearKeepsCalls(g: Saga, a: Action)
    requires CallsOk(g) && a.Hear?
    ensures CallsOk(Local(g, a))
  {
  }

  lemma {:induction false} TimeOutKeepsCalls(g: Saga, a: Action)
    requires CallsOk(g) && a.TimeOut?
    ensures CallsOk(Local(g, a))
  {
  }

  lemma {:induction false} CommitKeepsCalls(g: Saga, a: Action)
    requires CallsOk(g) && (a.Proceed? || a.HearEta?)
    ensures CallsOk(Local(g, a))
  {
  }

  lemma {:induction false} LocalKeepsCalls(g: Saga, a: Action)
    requires CallsOk(g)
    ensures CallsOk(Local(g, a))
  {
    if a.Hear? { HearKeepsCalls(g, a); }
    else if a.TimeOut? { TimeOutKeepsCalls(g, a); }
    else if a.Proceed? || a.HearEta? { CommitKeepsCalls(g, a); }
  }

  // ----- All sagas, the ledger, the inventory and the wire -----

  /** What a saga has brought about at the services. */
  datatype Effects = Effects(orderId: Id, items: seq<Item>, amount: int, charge: Option<Id>, repaid: bool, holding: bool)

  function EffectsOf(g: Saga): Effects {
    Effects(g.row.orderId, g.items, g.amount, Charge(g), Repaid(g), Holding(g))
  }

  predicate UniqueOrders(sagas: seq<Saga>) {
    forall i, j :: 0 <= i < j < |sagas| ==> sagas[i].row.orderId != sagas[j].row.orderId
  }

  predicate OwnedBy(sagas: seq<Saga>, key: Key, orderId: Id) {
    key.saga < |sagas| && sagas[key.saga].row.orderId == orderId
  }

  predicate Recorded(ledger: seq<Payment>, id: Id, amount: int) {
    exists k :: 0 <= k < |ledger| && ledger[k].paymentId == id && ledger[k].amount == amount && !ledger[k].status.Declined?
  }

  ghost predicate LedgerOk(sagas: seq<Saga>, ledger: seq<Payment>) {
    && (forall k :: 0 <= k < |ledger| ==> OwnedBy(sagas, ledger[k].key, ledger[k].orderId))
    && (forall j, k :: 0 <= j < k < |ledger| ==> ledger[j].paymentId != ledger[k].paymentId && ledger[j].key != ledger[k].key)
    && (forall i :: 0 <= i < |sagas| ==> Net(ledger, sagas[i].row.orderId) == Balance(sagas[i]))
    && (forall i :: 0 <= i < |sagas| && Charge(sagas[i]).Some? ==>
          Recorded(ledger, Charge(sagas[i]).value, sagas[i].amount))
  }

  ghost predicate StockOk(sagas: seq<Saga>, holds: seq<Hold>, stock: map<Item, int>, initial: map<Item, int>) {
    && (forall k :: 0 <= k < |holds| ==> OwnedBy(sagas, holds[k].key, holds[k].orderId))
    && (forall j, k :: 0 <= j < k < |holds| ==> holds[j].key != holds[k].key)
    && (forall i :: 0 <= i < |sagas| ==> HoldsOf(holds, sagas[i].row.orderId) == if Holding(sagas[i]) then 1 else 0)
    && (forall item :: UnitsHeld(holds, item) == UnitsOfSagas(sagas, item))
    && stock.Keys == initial.Keys
    && (forall item :: item in initial ==> stock[item] == initial[item] - UnitsHeld(holds, item))
  }

  function CallFor(g: Saga, key: Key): Call {
    match key
    case AuthorizeKey(_) => g.auth
    case ReserveKey(_) => g.reserve
    case RefundKey(_) => g.refund
  }

  predicate WireOk(sagas: seq<Saga>, wire: seq<Key>) {
    && (forall j, k :: 0 <= j < k < |wire| ==> wire[j] != wire[k])
    && (forall k :: 0 <= k < |wire| ==> wire[k].saga < |sagas| && CallFor(sagas[wire[k].saga], wire[k]) != Idle)
  }

  ghost predicate SagasOk(sagas: seq<Saga>) {
    forall i :: 0 <= i < |sagas| ==> SagaOk(sagas[i])
  }

  ghost predicate Inv(s: System, initial: map<Item, int>) {
    && SagasOk(s.sagas)
    && UniqueOrders(s.sagas)
    && LedgerOk(s.sagas, s.ledger)
    && StockOk(s.sagas, s.holds, s.stock, initial)
    && WireOk(s.sagas, s.wire)
  }

  // ----- Sums -----

  lemma {:induction false} NetAppend(ledger: seq<Payment>, p: Payment, orderId: Id)
    ensures Net(ledger + [p], orderId) == Net(ledger, orderId) + Value(p, orderId)
  {
    assert (ledger + [p])[..|ledger|] == ledger;
  }

  lemma {:induction false} NetFlip(ledger: seq<Payment>, k: nat, orderId: Id)
    requires k < |ledger| && !ledger[k].status.Declined?
    ensures Net(ledger[k := ledger[k].(status := Refunded)], orderId) == Net(ledger, orderId)
  {
    var n := |ledger| - 1;
    var flipped := ledger[k := ledger[k].(status := Refunded)];
    if k < n {
      NetFlip(ledger[..n], k, orderId);
      assert flipped[..n] == ledger[..n][k := ledger[k].(status := Refunded)];
    } else {
      assert flipped[..n] == ledger[..n];
    }
  }

  lemma {:induction false} NetNone(ledger: seq<Payment>, orderId: Id)
    requires forall k :: 0 <= k < |ledger| ==> ledger[k].orderId != orderId
    ensures Net(ledger, orderId) == 0
  {
    if ledger != [] { NetNone(ledger[..|ledger| - 1], orderId); }
  }

  lemma {:induction false} HoldsNone(holds: seq<Hold>, orderId: Id)
    requires forall k :: 0 <= k < |holds| ==> holds[k].orderId != orderId
    ensures HoldsOf(holds, orderId) == 0
  {
    if holds != [] { HoldsNone(holds[..|holds| - 1], orderId); }
  }

  lemma {:induction false} HoldsAppend(holds: seq<Hold>, h: Hold, orderId: Id)
    ensures HoldsOf(holds + [h], orderId) == HoldsOf(holds, orderId) + if h.orderId == orderId then 1 else 0
  {
    assert (holds + [h])[..|holds|] == holds;
  }

  lemma {:induction false} HeldAppend(holds: seq<Hold>, h: Hold, item: Item)
    ensures UnitsHeld(holds + [h], item) == UnitsHeld(holds, item) + Units(h.items, item)
  {
    assert (holds + [h])[..|holds|] == holds;
  }

  function Share(g: Saga, item: Item): nat {
    if Holding(g) then Units(g.items, item) else 0
  }

  lemma {:induction false} UnitsOfUpdate(sagas: seq<Saga>, i: nat, g: Saga, item: Item)
    requires i < |sagas|
    ensures UnitsOfSagas(sagas[i := g], item) + Share(sagas[i], item) == UnitsOfSagas(sagas, item) + Share(g, item)
  {
    var n := |sagas| - 1;
    if i < n {
      UnitsOfUpdate(sagas[..n], i, g, item);
      assert sagas[i := g][..n] == sagas[..n][i := g];
    } else {
      assert sagas[i := g][..n] == sagas[..n];
    }
  }

  // ----- Local actions -----

  lemma {:induction false} AdvanceKeepsOrder(r: Row, i: Input)
    ensures Advance(r, i).orderId == r.orderId
  {
  }

  lemma {:induction false} ConcludedKeepsEffects(g: Saga, verdict: Caller, row: Row)
    requires row.orderId == g.row.orderId
    ensures EffectsOf(Concluded(g, verdict).(row := row)) == EffectsOf(g)
    ensures EffectsOf(g.(row := row)) == EffectsOf(g)
  {
  }

  lemma {:induction false} LearnKeepsEffects(g: Saga, a: Action)
    requires Learns(g, a).Some?
    ensures EffectsOf(Local(g, a)) == EffectsOf(g)
  {
    var row := Advance(g.row, Learns(g, a).value);
    AdvanceKeepsOrder(g.row, Learns(g, a).value);
    ConcludedKeepsEffects(g, Answered, row);
    ConcludedKeepsEffects(g, Errored, row);
  }

  lemma {:induction false} LocalKeepsEffects(g: Saga, a: Action)
    ensures EffectsOf(Local(g, a)) == EffectsOf(g)
  {
    if Learns(g, a).Some? { LearnKeepsEffects(g, a); }
  }

  /** Replacing a saga by one with the same effects concerns neither the ledger nor the inventory. */
  lemma {:induction false} FrameEffects(s: System, i: nat, g: Saga, initial: map<Item, int>)
    requires i < |s.sagas| && EffectsOf(g) == EffectsOf(s.sagas[i])
    requires UniqueOrders(s.sagas) && LedgerOk(s.sagas, s.ledger) && StockOk(s.sagas, s.holds, s.stock, initial)
    ensures var sagas' := s.sagas[i := g];
      UniqueOrders(sagas') && LedgerOk(sagas', s.ledger) && StockOk(sagas', s.holds, s.stock, initial)
  {
    FrameLedger(s.sagas, s.ledger, i, g);
    FrameStock(s.sagas, s.holds, s.stock, i, g, initial);
  }

  lemma {:induction false} FrameLedger(sagas: seq<Saga>, ledger: seq<Payment>, i: nat, g: Saga)
    requires i < |sagas| && EffectsOf(g) == EffectsOf(sagas[i])
    requires LedgerOk(sagas, ledger)
    ensures LedgerOk(sagas[i := g], ledger)
  {
    var sagas' := sagas[i := g];
    assert forall j :: 0 <= j < |sagas| ==> EffectsOf(sagas'[j]) == EffectsOf(sagas[j]);
    forall j | 0 <= j < |sagas'| ensures Net(ledger, sagas'[j].row.orderId) == Balance(sagas'[j]) {
      assert EffectsOf(sagas'[j]) == EffectsOf(sagas[j]);
    }
    forall j | 0 <= j < |sagas'| && Charge(sagas'[j]).Some?
      ensures Recorded(ledger, Charge(sagas'[j]).value, sagas'[j].amount)
    {
      assert EffectsOf(sagas'[j]) == EffectsOf(sagas[j]);
    }
  }

  lemma {:induction false} FrameStock(sagas: seq<Saga>, holds: seq<Hold>, stock: map<Item, int>, i: nat, g: Saga,
                                      initial: map<Item, int>)
    requires i < |sagas| && EffectsOf(g) == EffectsOf(sagas[i])
    requires StockOk(sagas, holds, stock, initial)
    ensures StockOk(sagas[i := g], holds, stock, initial)
  {
    var sagas' := sagas[i := g];
    assert forall j :: 0 <= j < |sagas| ==> EffectsOf(sagas'[j]) == EffectsOf(sagas[j]);
    forall item ensures UnitsHeld(holds, item) == UnitsOfSagas(sagas', item) {
      UnitsOfUpdate(sagas, i, g, item);
    }
  }
}
