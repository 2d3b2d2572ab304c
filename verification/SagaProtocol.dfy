/** Any number of sagas against one payment ledger and one inventory, with lost, late and failed calls and crashes. */
module SagaProtocol {
  import opened Common
  import opened HttpAdapters
  import opened SagaRow
  import opened Stock

  /** `generate_idempotency_key(saga_id, service, action)`, taken as an injective name. */
  datatype Key = AuthorizeKey(saga: nat) | ReserveKey(saga: nat) | RefundKey(saga: nat)

  datatype Payment = Payment(paymentId: Id, orderId: Id, amount: int, status: PaymentStatus, key: Key)

  datatype Hold = Hold(reservationId: Id, orderId: Id, items: seq<Item>, key: Key)

  /** The service's side of one call. A request in flight may still be served after the caller gave up on it. */
  datatype Service = NotSent | InFlight | FailedBeforeCommit | Done(response: Response)

  /** The orchestrator's side of the same call. */
  datatype Caller = Unasked | Waiting | Answered | Errored

  datatype Call = Call(service: Service, caller: Caller)

  const Idle := Call(NotSent, Unasked)

  /** One `start_saga` invocation that got past its first commit; `row` is what its last commit made durable. */
  datatype Saga = Saga(row: Row, items: seq<Item>, amount: int, live: bool, auth: Call, reserve: Call, refund: Call)

  datatype System = System(
    sagas: seq<Saga>,
    ledger: seq<Payment>,
    stock: map<Item, int>,
    holds: seq<Hold>,
    wire: seq<Key>)

  datatype Action =
    | Start(orderId: Id, items: seq<Item>, amount: int)
    | Send(saga: nat)
    | ServeAuthorize(saga: nat, paymentId: Id, declined: bool)
    | ServeReserve(saga: nat, reservationId: Id)
    | ServeRefund(saga: nat, refundId: Id)
    | Fail(key: Key)
    | Hear(saga: nat)
    | TimeOut(saga: nat)
    | Proceed(saga: nat)
    | HearEta(saga: nat, eta: EtaAnswer)
    | Crash(saga: nat)

  // ----- Steps of one orchestrator -----

  function SendCall(g: Saga): Saga {
    var sent := Call(InFlight, Waiting);
    if !g.live then g
    else if g.row.state.PaymentPending? && g.auth == Idle then g.(auth := sent)
    else if g.row.state.InventoryPending? && g.reserve == Idle then g.(reserve := sent)
    else if g.row.state.Refunding? && g.refund == Idle then g.(refund := sent)
    else g
  }

  /** The key that `SendCall` puts on the wire, if it sends anything. */
  function SentKeys(g: Saga, i: nat): seq<Key> {
    if !g.live then []
    else if g.row.state.PaymentPending? && g.auth == Idle then [AuthorizeKey(i)]
    else if g.row.state.InventoryPending? && g.reserve == Idle then [ReserveKey(i)]
    else if g.row.state.Refunding? && g.refund == Idle then [RefundKey(i)]
    else []
  }

  function FailCall(c: Call): Call {
    if c.service.InFlight? then c.(service := FailedBeforeCommit) else c
  }

  /** What the orchestrator of `g` learns by an action, where the action is one it can take. `TimeOut` is the call
      raising in the orchestrator, whatever its fate at the service. */
  function Learns(g: Saga, a: Action): Option<Input> {
    if !g.live then None
    else if a.Proceed? then Some(Continue)
    else if a.HearEta? then Some(Estimate(a.eta))
    else if !(a.Hear? || a.TimeOut?) then None
    else if g.row.state.PaymentPending? && g.auth.caller.Waiting? then
      if a.TimeOut? then Some(Authorization(Raise))
      else if g.auth.service.Done? then Some(Authorization(Strict(g.auth.service.response)))
      else None
    else if g.row.state.InventoryPending? && g.reserve.caller.Waiting? then
      if a.TimeOut? then Some(Reservation(Raise))
      else if g.reserve.service.Done? then Some(Reservation(Strict(g.reserve.service.response)))
      else None
    else if g.row.state.Refunding? && g.refund.caller.Waiting? then
      if a.TimeOut? then Some(Refund(Raise))
      else if g.refund.service.Done? then Some(Refund(Lenient(g.refund.service.response)))
      else None
    else None
  }

  /** The outstanding call is over for the caller. */
  function Concluded(g: Saga, verdict: Caller): Saga {
    if g.row.state.PaymentPending? then g.(auth := g.auth.(caller := verdict))
    else if g.row.state.InventoryPending? then g.(reserve := g.reserve.(caller := verdict))
    else g.(refund := g.refund.(caller := verdict))
  }

  /** The effect of an action on one saga, where it has no effect on the ledger or the inventory. */
  function Local(g: Saga, a: Action): Saga {
    match a
    case Send(_) => SendCall(g)
    case Crash(_) => g.(live := false)
    case Fail(key) =>
      (match key
       case AuthorizeKey(_) => g.(auth := FailCall(g.auth))
       case ReserveKey(_) => g.(reserve := FailCall(g.reserve))
       case RefundKey(_) => g.(refund := FailCall(g.refund)))
    case _ =>
      var learnt := Learns(g, a);
      if learnt.None? then g
      else
        var g' := if a.Hear? then Concluded(g, Answered) else if a.TimeOut? then Concluded(g, Errored) else g;
        g'.(row := Advance(g.row, learnt.value))
  }

  // ----- Steps of the services -----

  predicate Taken(ledger: seq<Payment>, key: Key, id: Id) {
    exists k :: 0 <= k < |ledger| && (ledger[k].key == key || ledger[k].paymentId == id)
  }

  /** The row `refund_payment` reads: the first with this payment id. */
  function Find(ledger: seq<Payment>, id: Id): (at: Option<nat>)
    ensures at.Some? ==> at.value < |ledger| && ledger[at.value].paymentId == id
    ensures at.None? ==> forall k :: 0 <= k < |ledger| ==> ledger[k].paymentId != id
  {
    if ledger == [] then None
    else
      var n := |ledger| - 1;
      match Find(ledger[..n], id)
      case Some(k) => Some(k)
      case None => if ledger[n].paymentId == id then Some(n) else None
  }

  function Answer(c: Call, status: nat, body: Body): Call {
    c.(service := Done(Response(status, body)))
  }

  function AuthorizePayment(s: System, i: nat, paymentId: Id, declined: bool): System
    requires i < |s.sagas|
  {
    var g := s.sagas[i];
    if !g.auth.service.InFlight? then s
    else if g.amount <= 0 then s.(sagas := s.sagas[i := g.(auth := Answer(g.auth, 422, Detail))])
    else if Taken(s.ledger, AuthorizeKey(i), paymentId) then
      s.(sagas := s.sagas[i := g.(auth := Answer(g.auth, 500, Detail))])
    else
      var status := if declined then Declined else Authorized;
      s.(ledger := s.ledger + [Payment(paymentId, g.row.orderId, g.amount, status, AuthorizeKey(i))],
         sagas := s.sagas[i := g.(auth := Answer(g.auth, 200, PaymentBody(paymentId, status)))])
  }

  function RefundPayment(s: System, i: nat, refundId: Id): System
    requires i < |s.sagas|
  {
    var g := s.sagas[i];
    if !g.refund.service.InFlight? || g.row.paymentId.None? then s
    else
      match Find(s.ledger, g.row.paymentId.value)
      case None => s.(sagas := s.sagas[i := g.(refund := Answer(g.refund, 404, Detail))])
      case Some(k) =>
        if Taken(s.ledger, RefundKey(i), refundId) then
          s.(sagas := s.sagas[i := g.(refund := Answer(g.refund, 500, Detail))])
        else
          var original := s.ledger[k];
          s.(ledger := s.ledger[k := original.(status := Refunded)]
                       + [Payment(refundId, g.row.orderId, -original.amount, Refunded, RefundKey(i))],
             sagas := s.sagas[i := g.(refund := Answer(g.refund, 200, PaymentBody(refundId, Refunded)))])
  }

  predicate HoldTaken(holds: seq<Hold>, key: Key, id: Id) {
    exists k :: 0 <= k < |holds| && (holds[k].key == key || holds[k].reservationId == id)
  }

  function ReserveStock(s: System, i: nat, reservationId: Id): System
    requires i < |s.sagas|
  {
    var g := s.sagas[i];
    if !g.reserve.service.InFlight? then s
    else if g.items == [] then s.(sagas := s.sagas[i := g.(reserve := Answer(g.reserve, 422, Detail))])
    else if !Available(s.stock, g.items) then
      s.(sagas := s.sagas[i := g.(reserve := Answer(g.reserve, 200, ReservationBody(reservationId, OutOfStock)))])
    else if HoldTaken(s.holds, ReserveKey(i), reservationId) then
      s.(sagas := s.sagas[i := g.(reserve := Answer(g.reserve, 500, Detail))])
    else
      s.(stock := Subtract(s.stock, g.items),
         holds := s.holds + [Hold(reservationId, g.row.orderId, g.items, ReserveKey(i))],
         sagas := s.sagas[i := g.(reserve := Answer(g.reserve, 200, ReservationBody(reservationId, Reserved)))])
  }

  // ----- The system -----

  predicate OrderTaken(sagas: seq<Saga>, orderId: Id) {
    exists i :: 0 <= i < |sagas| && sagas[i].row.orderId == orderId
  }

  function SagaOf(a: Action): nat
    requires !a.Start?
  {
    if a.Fail? then a.key.saga else a.saga
  }

  /** Actions that are not possible in a state leave it as it is. */
  function Next(s: System, a: Action): System {
    if a.Start? then
      if OrderTaken(s.sagas, a.orderId) then s
      else s.(sagas := s.sagas + [Saga(Started(a.orderId), a.items, a.amount, true, Idle, Idle, Idle)])
    else if SagaOf(a) >= |s.sagas| then s
    else
      var i := SagaOf(a);
      if a.ServeAuthorize? then AuthorizePayment(s, i, a.paymentId, a.declined)
      else if a.ServeReserve? then ReserveStock(s, i, a.reservationId)
      else if a.ServeRefund? then RefundPayment(s, i, a.refundId)
      else
        s.(sagas := s.sagas[i := Local(s.sagas[i], a)],
           wire := if a.Send? then s.wire + SentKeys(s.sagas[i], i) else s.wire)
  }

  function Initial(stock: map<Item, int>): System {
    System([], [], stock, [], [])
  }

  function Run(s: System, actions: seq<Action>): System {
    if actions == [] then s else Next(Run(s, actions[..|actions| - 1]), actions[|actions| - 1])
  }

  // ----- Observations -----

  /** What a ledger row contributes to the balance of an order. */
  function Value(p: Payment, orderId: Id): int {
    if p.orderId == orderId && p.status != Declined then p.amount else 0
  }

  function Net(ledger: seq<Payment>, orderId: Id): int {
    if ledger == [] then 0 else Net(ledger[..|ledger| - 1], orderId) + Value(ledger[|ledger| - 1], orderId)
  }

  function HoldsOf(holds: seq<Hold>, orderId: Id): nat {
    if holds == [] then 0
    else HoldsOf(holds[..|holds| - 1], orderId) + (if holds[|holds| - 1].orderId == orderId then 1 else 0)
  }

  function UnitsHeld(holds: seq<Hold>, item: Item): nat {
    if holds == [] then 0
    else UnitsHeld(holds[..|holds| - 1], item) + Units(holds[|holds| - 1].items, item)
  }

  /** The payment a committed authorization created, if it authorized. */
  function Charge(g: Saga): Option<Id> {
    if g.auth.service.Done? && g.auth.service.response.body.PaymentBody?
       && g.auth.service.response.body.paymentStatus == Authorized
    then Some(g.auth.service.response.body.paymentId) else None
  }

  predicate Holding(g: Saga) {
    && g.reserve.service.Done? && g.reserve.service.response.body.ReservationBody?
    && g.reserve.service.response.body.reservationStatus == Reserved
  }

  predicate Repaid(g: Saga) {
    g.refund.service.Done? && g.refund.service.response.status == 200
  }

  function Balance(g: Saga): int {
    (if Charge(g).Some? then g.amount else 0) - (if Repaid(g) then g.amount else 0)
  }

  function UnitsOfSagas(sagas: seq<Saga>, item: Item): nat {
    if sagas == [] then 0
    else UnitsOfSagas(sagas[..|sagas| - 1], item)
         + (if Holding(sagas[|sagas| - 1]) then Units(sagas[|sagas| - 1].items, item) else 0)
  }

  // ----- What the steps do, case by case -----

  /** What an orchestrator takes a reply for: both forward calls raise on 5xx and 422, the refund on 5xx alone. */
  lemma {:induction false} HearsAs(g: Saga, i: nat, status: nat, body: Body)
    requires g.live
    ensures g.row.state.PaymentPending? && g.auth == Call(Done(Response(status, body)), Waiting) ==>
      Learns(g, Hear(i)) == Some(Authorization(if status >= 500 || status == 422 then Raise else Return(body)))
    ensures g.row.state.InventoryPending? && g.reserve == Call(Done(Response(status, body)), Waiting) ==>
      Learns(g, Hear(i)) == Some(Reservation(if status >= 500 || status == 422 then Raise else Return(body)))
    ensures g.row.state.Refunding? && g.refund == Call(Done(Response(status, body)), Waiting) ==>
      Learns(g, Hear(i)) == Some(Refund(if status >= 500 then Raise else Return(body)))
  {
  }

  /** A call that times out is taken for an exception, and the ETA answer for what it is. */
  lemma {:induction false} LearnsAs(g: Saga, i: nat, eta: EtaAnswer)
    ensures g.live ==> Learns(g, HearEta(i, eta)) == Some(Estimate(eta)) && Learns(g, Proceed(i)) == Some(Continue)
    ensures !g.live ==> forall a :: Learns(g, a) == None
    ensures g.live && g.row.state.PaymentPending? && g.auth.caller.Waiting? ==>
      Learns(g, TimeOut(i)) == Some(Authorization(Raise))
    ensures g.live && g.row.state.InventoryPending? && g.reserve.caller.Waiting? ==>
      Learns(g, TimeOut(i)) == Some(Reservation(Raise))
    ensures g.live && g.row.state.Refunding? && g.refund.caller.Waiting? ==> Learns(g, TimeOut(i)) == Some(Refund(Raise))
  {
  }

  /** What an authorization in flight is answered, and the row it adds. */
  lemma {:induction false} AuthorizeServes(s: System, i: nat, id: Id, declined: bool)
    requires i < |s.sagas| && s.sagas[i].auth.service.InFlight?
    ensures var s', g := AuthorizePayment(s, i, id, declined), s.sagas[i];
      && |s'.sagas| == |s.sagas| && s'.stock == s.stock && s'.holds == s.holds
      && if g.amount <= 0 then s'.ledger == s.ledger && s'.sagas[i].auth.service == Done(Response(422, Detail))
         else if Taken(s.ledger, AuthorizeKey(i), id) then
           s'.ledger == s.ledger && s'.sagas[i].auth.service == Done(Response(500, Detail))
         else if declined then
           && s'.ledger == s.ledger + [Payment(id, g.row.orderId, g.amount, Declined, AuthorizeKey(i))]
           && s'.sagas[i].auth.service == Done(Response(200, PaymentBody(id, Declined)))
         else
           && s'.ledger == s.ledger + [Payment(id, g.row.orderId, g.amount, Authorized, AuthorizeKey(i))]
           && s'.sagas[i].auth.service == Done(Response(200, PaymentBody(id, Authorized)))
  {
  }

  /** What a refund in flight is answered: the payment it names is marked REFUNDED and a negative row is added. */
  lemma {:induction false} RefundServes(s: System, i: nat, id: Id, k: nat)
    requires i < |s.sagas| && s.sagas[i].refund.service.InFlight? && s.sagas[i].row.paymentId.Some?
    requires Find(s.ledger, s.sagas[i].row.paymentId.value) == Some(k) && !Taken(s.ledger, RefundKey(i), id)
    ensures var s', g := RefundPayment(s, i, id), s.sagas[i];
      && |s'.ledger| == |s.ledger| + 1 && |s'.sagas| == |s.sagas| && s'.stock == s.stock && s'.holds == s.holds
      && s'.ledger[k] == s.ledger[k].(status := Refunded)
      && (forall j :: 0 <= j < |s.ledger| && j != k ==> s'.ledger[j] == s.ledger[j])
      && s'.ledger[|s.ledger|] == Payment(id, g.row.orderId, -s.ledger[k].amount, Refunded, RefundKey(i))
      && s'.sagas[i].refund.service == Done(Response(200, PaymentBody(id, Refunded)))
  {
  }

  /** What a reservation in flight is answered, and what it takes from the stock. */
  lemma {:induction false} ReserveServes(s: System, i: nat, id: Id)
    requires i < |s.sagas| && s.sagas[i].reserve.service.InFlight?
    ensures var s', g := ReserveStock(s, i, id), s.sagas[i];
      && |s'.sagas| == |s.sagas| && s'.ledger == s.ledger
      && if g.items == [] then s'.holds == s.holds && s'.stock == s.stock
                               && s'.sagas[i].reserve.service == Done(Response(422, Detail))
         else if !Available(s.stock, g.items) then
           && s'.holds == s.holds && s'.stock == s.stock
           && s'.sagas[i].reserve.service == Done(Response(200, ReservationBody(id, OutOfStock)))
         else if HoldTaken(s.holds, ReserveKey(i), id) then
           s'.holds == s.holds && s'.stock == s.stock && s'.sagas[i].reserve.service == Done(Response(500, Detail))
         else
           && s'.holds == s.holds + [Hold(id, g.row.orderId, g.items, ReserveKey(i))]
           && s'.sagas[i].reserve.service == Done(Response(200, ReservationBody(id, Reserved)))
           && forall item :: item in s.stock ==>
                item in s'.stock && s'.stock[item] == s.stock[item] - Units(g.items, item)
  {
  }
}
