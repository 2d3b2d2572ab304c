/** Every action of the saga protocol keeps the invariant. */
module SagaSteps {
  import opened Common
  import opened HttpAdapters
  import opened SagaRow
  import opened Stock
  import opened SagaProtocol
  import opened SagaInvariant

  // ----- A new saga -----

  lemma {:induction false} StartKeepsLedger(sagas: seq<Saga>, ledger: seq<Payment>, g: Saga)
    requires LedgerOk(sagas, ledger) && !OrderTaken(sagas, g.row.orderId)
    requires g.auth == g.refund == Idle
    ensures LedgerOk(sagas + [g], ledger)
  {
    NetNone(ledger, g.row.orderId);
  }

  lemma {:induction false} StartKeepsStock(sagas: seq<Saga>, holds: seq<Hold>, stock: map<Item, int>, g: Saga,
                                           initial: map<Item, int>)
    requires StockOk(sagas, holds, stock, initial) && !OrderTaken(sagas, g.row.orderId)
    requires g.reserve == Idle
    ensures StockOk(sagas + [g], holds, stock, initial)
  {
    HoldsNone(holds, g.row.orderId);
    assert (sagas + [g])[..|sagas|] == sagas;
  }

  lemma {:induction false} StartKeepsSagas(sagas: seq<Saga>, wire: seq<Key>, g: Saga)
    requires SagasOk(sagas) && UniqueOrders(sagas) && WireOk(sagas, wire)
    requires SagaOk(g) && !OrderTaken(sagas, g.row.orderId)
    ensures SagasOk(sagas + [g]) && UniqueOrders(sagas + [g]) && WireOk(sagas + [g], wire)
  {
  }

  lemma {:induction false} StartKeepsInv(s: System, a: Action, initial: map<Item, int>)
    requires Inv(s, initial) && a.Start?
    ensures Inv(Next(s, a), initial)
  {
    if !OrderTaken(s.sagas, a.orderId) {
      var g := Saga(Started(a.orderId), a.items, a.amount, true, Idle, Idle, Idle);
      StartedIsGood(a.orderId);
      StartKeepsSagas(s.sagas, s.wire, g);
      StartKeepsLedger(s.sagas, s.ledger, g);
      StartKeepsStock(s.sagas, s.holds, s.stock, g, initial);
    }
  }

  // ----- Actions of one orchestrator -----

  lemma {:induction false} LocalKeepsPresent(g: Saga, a: Action, g': Saga)
    requires SagaOk(g) && g' == Local(g, a)
    ensures GoodRow(g'.row) && CallsOk(g')
  {
    LocalKeepsRow(g, a);
    LocalKeepsCalls(g, a);
  }

  lemma {:induction false} LocalKeepsPast(g: Saga, a: Action, g': Saga)
    requires SagaOk(g) && g' == Local(g, a)
    ensures PendingFirst(g') && RefundAnswered(g')
  {
    assert EndOf(g.row.steps) == g.row.state;
    LocalKeepsPending(g, a);
    LocalKeepsRefund(g, a);
  }

  lemma {:induction false} LocalKeepsSaga(g: Saga, a: Action)
    requires SagaOk(g)
    ensures SagaOk(Local(g, a)) && EffectsOf(Local(g, a)) == EffectsOf(g)
  {
    LocalKeepsPresent(g, a, Local(g, a));
    LocalKeepsPast(g, a, Local(g, a));
    LocalKeepsNames(g, a);
    LocalKeepsEffects(g, a);
  }

  lemma {:induction false} LocalKeepsSent(g: Saga, a: Action, key: Key)
    requires CallsOk(g) && CallFor(g, key) != Idle
    ensures CallFor(Local(g, a), key) != Idle
  {
  }

  lemma {:induction false} SendIsFirst(g: Saga, i: nat)
    requires CallsOk(g)
    ensures |SentKeys(g, i)| <= 1
    ensures forall key :: key in SentKeys(g, i) ==>
      key.saga == i && CallFor(g, key) == Idle && CallFor(SendCall(g), key) != Idle
  {
  }

  lemma {:induction false} LocalKeepsWire(sagas: seq<Saga>, wire: seq<Key>, i: nat, a: Action)
    requires i < |sagas| && CallsOk(sagas[i]) && WireOk(sagas, wire)
    ensures WireOk(sagas[i := Local(sagas[i], a)], if a.Send? then wire + SentKeys(sagas[i], i) else wire)
  {
    var g, sagas' := sagas[i], sagas[i := Local(sagas[i], a)];
    forall k | 0 <= k < |wire| ensures CallFor(sagas'[wire[k].saga], wire[k]) != Idle {
      if wire[k].saga == i { LocalKeepsSent(g, a, wire[k]); }
    }
    if a.Send? {
      SendIsFirst(g, i);
      var sent := SentKeys(g, i);
      if sent != [] {
        assert sent == [sent[0]] && sent[0] in sent;
        assert forall k :: 0 <= k < |wire| ==> wire[k] != sent[0];
      } else {
        assert wire + sent == wire;
      }
    }
  }

  lemma {:induction false} LocalKeepsInv(s: System, a: Action, initial: map<Item, int>)
    requires Inv(s, initial) && !a.Start? && SagaOf(a) < |s.sagas|
    ensures var g := Local(s.sagas[SagaOf(a)], a);
      Inv(s.(sagas := s.sagas[SagaOf(a) := g],
             wire := if a.Send? then s.wire + SentKeys(s.sagas[SagaOf(a)], SagaOf(a)) else s.wire), initial)
  {
    var i := SagaOf(a);
    LocalKeepsSaga(s.sagas[i], a);
    FrameEffects(s, i, Local(s.sagas[i], a), initial);
    LocalKeepsWire(s.sagas, s.wire, i, a);
  }

  // ----- The services -----

  /** `g` is `g0` with a call served: same row and same calls sent. */
  predicate Served(g0: Saga, g: Saga) {
    && g.row == g0.row && g.items == g0.items && g.amount == g0.amount
    && (g0.auth != Idle ==> g.auth != Idle)
    && (g0.reserve != Idle ==> g.reserve != Idle)
    && (g0.refund != Idle ==> g.refund != Idle)
  }

  lemma {:induction false} ServedKeepsSagas(sagas: seq<Saga>, wire: seq<Key>, i: nat, g: Saga)
    requires SagasOk(sagas) && UniqueOrders(sagas) && WireOk(sagas, wire) && i < |sagas|
    requires SagaOk(g) && Served(sagas[i], g)
    ensures SagasOk(sagas[i := g]) && UniqueOrders(sagas[i := g]) && WireOk(sagas[i := g], wire)
  {
  }

  /** A call in flight is not answered yet, so serving it does not touch what the log says. */
  lemma {:induction false} ServedKeepsNames(g: Saga, g': Saga)
    requires SagaOk(g) && Served(g, g') && CallsOk(g')
    requires g'.auth == g.auth || (g.auth.service.InFlight? && g'.auth.caller == g.auth.caller)
    requires g'.reserve == g.reserve || (g.reserve.service.InFlight? && g'.reserve.caller == g.reserve.caller)
    requires g'.refund.caller == g.refund.caller
    requires (g'.auth == Idle <==> g.auth == Idle) && (g'.reserve == Idle <==> g.reserve == Idle)
    requires g'.refund == Idle <==> g.refund == Idle
    ensures SagaOk(g')
  {
    assert Excepted(g'.auth) <==> Excepted(g.auth);
    assert Excepted(g'.reserve) <==> Excepted(g.reserve);
  }

  lemma {:induction false} AuthorizeServed(g: Saga, status: nat, body: Body)
    requires SagaOk(g) && g.auth.service.InFlight?
    requires (status == 200 && body.PaymentBody? && !body.paymentStatus.Refunded? && g.amount > 0)
             || ((status == 422 || status == 500) && body.Detail?)
    ensures var g' := g.(auth := Answer(g.auth, status, body)); SagaOk(g') && Served(g, g')
  {
    var g' := g.(auth := Answer(g.auth, status, body));
    assert CallsOk(g');
    ServedKeepsNames(g, g');
  }

  lemma {:induction false} ReserveServed(g: Saga, status: nat, body: Body)
    requires SagaOk(g) && g.reserve.service.InFlight?
    requires (status == 200 && body.ReservationBody?) || ((status == 422 || status == 500) && body.Detail?)
    ensures var g' := g.(reserve := Answer(g.reserve, status, body)); SagaOk(g') && Served(g, g')
  {
    var g' := g.(reserve := Answer(g.reserve, status, body));
    assert CallsOk(g');
    ServedKeepsNames(g, g');
  }

  lemma {:induction false} RefundServed(g: Saga, status: nat, body: Body)
    requires SagaOk(g) && g.refund.service.InFlight?
    requires (status == 200 && body.PaymentBody?) || (status == 500 && body.Detail?)
    ensures var g' := g.(refund := Answer(g.refund, status, body)); SagaOk(g') && Served(g, g')
  {
    var g' := g.(refund := Answer(g.refund, status, body));
    assert CallsOk(g');
    ServedKeepsNames(g, g');
  }

  /** A reply without effect at the service. */
  lemma {:induction false} ReplyKeepsInv(s: System, i: nat, g: Saga, initial: map<Item, int>)
    requires Inv(s, initial) && i < |s.sagas|
    requires SagaOk(g) && Served(s.sagas[i], g) && EffectsOf(g) == EffectsOf(s.sagas[i])
    ensures Inv(s.(sagas := s.sagas[i := g]), initial)
  {
    ServedKeepsSagas(s.sagas, s.wire, i, g);
    FrameLedger(s.sagas, s.ledger, i, g);
    FrameStock(s.sagas, s.holds, s.stock, i, g, initial);
  }

  lemma {:induction false} LedgerAuthorize(sagas: seq<Saga>, ledger: seq<Payment>, i: nat, g: Saga, p: Payment)
    requires LedgerOk(sagas, ledger) && UniqueOrders(sagas) && i < |sagas|
    requires p.key == AuthorizeKey(i) && p.orderId == sagas[i].row.orderId == g.row.orderId
    requires p.amount == g.amount == sagas[i].amount && !p.status.Refunded?
    requires !Taken(ledger, p.key, p.paymentId)
    requires Charge(sagas[i]).None? && Charge(g) == (if p.status.Authorized? then Some(p.paymentId) else None)
    requires Repaid(g) == Repaid(sagas[i])
    ensures LedgerOk(sagas[i := g], ledger + [p])
  {
    var sagas', ledger' := sagas[i := g], ledger + [p];
    forall j | 0 <= j < |sagas'| ensures Net(ledger', sagas'[j].row.orderId) == Balance(sagas'[j]) {
      NetAppend(ledger, p, sagas'[j].row.orderId);
    }
    forall j | 0 <= j < |sagas'| && Charge(sagas'[j]).Some?
      ensures Recorded(ledger', Charge(sagas'[j]).value, sagas'[j].amount)
    {
      if j == i {
        assert ledger'[|ledger|] == p;
      } else {
        var k :| 0 <= k < |ledger| && ledger[k].paymentId == Charge(sagas[j]).value
                 && ledger[k].amount == sagas[j].amount && !ledger[k].status.Declined?;
        assert ledger'[k] == ledger[k];
      }
    }
  }

  lemma {:induction false} AuthorizeRefused(s: System, i: nat, status: nat, initial: map<Item, int>)
    requires Inv(s, initial) && i < |s.sagas| && s.sagas[i].auth.service.InFlight? && (status == 422 || status == 500)
    ensures Inv(s.(sagas := s.sagas[i := s.sagas[i].(auth := Answer(s.sagas[i].auth, status, Detail))]), initial)
  {
    var g := s.sagas[i];
    AuthorizeServed(g, status, Detail);
    ReplyKeepsInv(s, i, g.(auth := Answer(g.auth, status, Detail)), initial);
  }

  lemma {:induction false} AuthorizeKeepsInv(s: System, i: nat, paymentId: Id, declined: bool, initial: map<Item, int>)
    requires Inv(s, initial) && i < |s.sagas|
    ensures Inv(AuthorizePayment(s, i, paymentId, declined), initial)
  {
    var g := s.sagas[i];
    if g.auth.service.InFlight? {
      if g.amount <= 0 {
        AuthorizeRefused(s, i, 422, initial);
        assert AuthorizePayment(s, i, paymentId, declined)
          == s.(sagas := s.sagas[i := g.(auth := Answer(g.auth, 422, Detail))]);
      } else if Taken(s.ledger, AuthorizeKey(i), paymentId) {
        AuthorizeRefused(s, i, 500, initial);
        assert AuthorizePayment(s, i, paymentId, declined)
          == s.(sagas := s.sagas[i := g.(auth := Answer(g.auth, 500, Detail))]);
      } else {
        AuthorizeCommitKeepsInv(s, i, paymentId, declined, initial);
      }
    }
  }

  lemma {:induction false} AuthorizeCommitKeepsInv(s: System, i: nat, paymentId: Id, declined: bool,
                                                   initial: map<Item, int>)
    requires Inv(s, initial) && i < |s.sagas|
    requires s.sagas[i].auth.service.InFlight? && s.sagas[i].amount > 0 && !Taken(s.ledger, AuthorizeKey(i), paymentId)
    ensures Inv(AuthorizePayment(s, i, paymentId, declined), initial)
  {
    var g := s.sagas[i];
    var status := if declined then Declined else Authorized;
    var g' := g.(auth := Answer(g.auth, 200, PaymentBody(paymentId, status)));
    AuthorizeServed(g, 200, PaymentBody(paymentId, status));
    ServedKeepsSagas(s.sagas, s.wire, i, g');
    LedgerAuthorize(s.sagas, s.ledger, i, g', Payment(paymentId, g.row.orderId, g.amount, status, AuthorizeKey(i)));
    LedgerFramesStock(s.sagas, s.holds, s.stock, i, g', initial);
  }

  /** A payment does not concern the inventory. */
  lemma {:induction false} LedgerFramesStock(sagas: seq<Saga>, holds: seq<Hold>, stock: map<Item, int>, i: nat, g: Saga,
                                             initial: map<Item, int>)
    requires StockOk(sagas, holds, stock, initial) && i < |sagas|
    requires g.row.orderId == sagas[i].row.orderId && g.items == sagas[i].items && Holding(g) == Holding(sagas[i])
    ensures StockOk(sagas[i := g], holds, stock, initial)
  {
    forall item ensures UnitsHeld(holds, item) == UnitsOfSagas(sagas[i := g], item) {
      UnitsOfUpdate(sagas, i, g, item);
    }
  }

  /** The refund finds exactly the payment its saga was charged with: the 404 branch is unreachable. */
  lemma {:induction false} RefundFindsCharge(s: System, i: nat, initial: map<Item, int>) returns (k: nat)
    requires Inv(s, initial) && i < |s.sagas| && s.sagas[i].refund.service.InFlight?
    ensures s.sagas[i].row.paymentId.Some? && Find(s.ledger, s.sagas[i].row.paymentId.value) == Some(k)
    ensures k < |s.ledger| && s.ledger[k].amount == s.sagas[i].amount && !s.ledger[k].status.Declined?
  {
    var g := s.sagas[i];
    assert SagaOk(g);
    RefundIsPaid(g);
    assert Recorded(s.ledger, g.row.paymentId.value, g.amount);
    k := RecordedIsFound(s.ledger, g.row.paymentId.value, g.amount);
  }

  lemma {:induction false} RefundIsPaid(g: Saga)
    requires CallsOk(g) && g.refund.service.InFlight?
    ensures Charge(g).Some? && Charge(g) == g.row.paymentId
  {
    assert g.refund != Idle;
  }

  lemma {:induction false} RecordedIsFound(ledger: seq<Payment>, id: Id, amount: int) returns (k: nat)
    requires Recorded(ledger, id, amount)
    requires forall j, k :: 0 <= j < k < |ledger| ==> ledger[j].paymentId != ledger[k].paymentId
    ensures Find(ledger, id) == Some(k) && k < |ledger| && ledger[k].amount == amount && !ledger[k].status.Declined?
  {
    k :| 0 <= k < |ledger| && ledger[k].paymentId == id && ledger[k].amount == amount && !ledger[k].status.Declined?;
    var at := Find(ledger, id);
    assert at.value == k;
  }

  lemma {:induction false} LedgerFlip(sagas: seq<Saga>, ledger: seq<Payment>, k: nat)
    requires LedgerOk(sagas, ledger) && k < |ledger| && !ledger[k].status.Declined?
    ensures LedgerOk(sagas, ledger[k := ledger[k].(status := Refunded)])
  {
    var ledger' := ledger[k := ledger[k].(status := Refunded)];
    assert forall j :: 0 <= j < |ledger| ==>
      ledger'[j].paymentId == ledger[j].paymentId && ledger'[j].key == ledger[j].key
      && ledger'[j].orderId == ledger[j].orderId && ledger'[j].amount == ledger[j].amount;
    forall j | 0 <= j < |sagas| ensures Net(ledger', sagas[j].row.orderId) == Balance(sagas[j]) {
      NetFlip(ledger, k, sagas[j].row.orderId);
    }
    forall j | 0 <= j < |sagas| && Charge(sagas[j]).Some?
      ensures Recorded(ledger', Charge(sagas[j]).value, sagas[j].amount)
    {
      var m :| 0 <= m < |ledger| && ledger[m].paymentId == Charge(sagas[j]).value
               && ledger[m].amount == sagas[j].amount && !ledger[m].status.Declined?;
      assert ledger'[m].paymentId == ledger[m].paymentId;
    }
  }

  lemma {:induction false} LedgerRefund(sagas: seq<Saga>, ledger: seq<Payment>, i: nat, g: Saga, p: Payment)
    requires LedgerOk(sagas, ledger) && UniqueOrders(sagas) && i < |sagas|
    requires p.key == RefundKey(i) && p.orderId == sagas[i].row.orderId == g.row.orderId
    requires p.amount == -g.amount && g.amount == sagas[i].amount && p.status.Refunded?
    requires !Taken(ledger, p.key, p.paymentId)
    requires Charge(g) == Charge(sagas[i]) && !Repaid(sagas[i]) && Repaid(g)
    ensures LedgerOk(sagas[i := g], ledger + [p])
  {
    var sagas', ledger' := sagas[i := g], ledger + [p];
    forall j | 0 <= j < |sagas'| ensures Net(ledger', sagas'[j].row.orderId) == Balance(sagas'[j]) {
      NetAppend(ledger, p, sagas'[j].row.orderId);
    }
    forall j | 0 <= j < |sagas'| && Charge(sagas'[j]).Some?
      ensures Recorded(ledger', Charge(sagas'[j]).value, sagas'[j].amount)
    {
      var k :| 0 <= k < |ledger| && ledger[k].paymentId == Charge(sagas[j]).value
               && ledger[k].amount == sagas[j].amount && !ledger[k].status.Declined?;
      assert ledger'[k] == ledger[k];
    }
  }

  lemma {:induction false} RefundRefused(s: System, i: nat, initial: map<Item, int>)
    requires Inv(s, initial) && i < |s.sagas| && s.sagas[i].refund.service.InFlight?
    ensures Inv(s.(sagas := s.sagas[i := s.sagas[i].(refund := Answer(s.sagas[i].refund, 500, Detail))]), initial)
  {
    var g := s.sagas[i];
    RefundServed(g, 500, Detail);
    ReplyKeepsInv(s, i, g.(refund := Answer(g.refund, 500, Detail)), initial);
  }

  lemma {:induction false} RefundKeepsInv(s: System, i: nat, refundId: Id, initial: map<Item, int>)
    requires Inv(s, initial) && i < |s.sagas|
    ensures Inv(RefundPayment(s, i, refundId), initial)
  {
    var g := s.sagas[i];
    if g.refund.service.InFlight? {
      var k := RefundFindsCharge(s, i, initial);
      RefundUnfolds(s, i, k, refundId);
      if Taken(s.ledger, RefundKey(i), refundId) {
        RefundRefused(s, i, initial);
      } else {
        RefundCommitKeepsInv(s, i, k, refundId, initial);
      }
    }
  }

  function Repay(s: System, i: nat, k: nat, refundId: Id): System
    requires i < |s.sagas| && k < |s.ledger|
  {
    var g := s.sagas[i];
    s.(ledger := s.ledger[k := s.ledger[k].(status := Refunded)]
                 + [Payment(refundId, g.row.orderId, -s.ledger[k].amount, Refunded, RefundKey(i))],
       sagas := s.sagas[i := g.(refund := Answer(g.refund, 200, PaymentBody(refundId, Refunded)))])
  }

  lemma {:induction false} RefundUnfolds(s: System, i: nat, k: nat, refundId: Id)
    requires i < |s.sagas| && k < |s.ledger|
    requires s.sagas[i].refund.service.InFlight? && s.sagas[i].row.paymentId.Some?
    requires Find(s.ledger, s.sagas[i].row.paymentId.value) == Some(k)
    ensures var g := s.sagas[i];
      RefundPayment(s, i, refundId) ==
      if Taken(s.ledger, RefundKey(i), refundId) then s.(sagas := s.sagas[i := g.(refund := Answer(g.refund, 500, Detail))])
      else Repay(s, i, k, refundId)
  {
  }

  lemma {:induction false} RepayKeepsLedger(s: System, i: nat, k: nat, refundId: Id)
    requires LedgerOk(s.sagas, s.ledger) && UniqueOrders(s.sagas) && i < |s.sagas| && k < |s.ledger|
    requires s.sagas[i].refund.service.InFlight? && !Taken(s.ledger, RefundKey(i), refundId)
    requires s.ledger[k].amount == s.sagas[i].amount && !s.ledger[k].status.Declined?
    ensures LedgerOk(Repay(s, i, k, refundId).sagas, Repay(s, i, k, refundId).ledger)
  {
    var g := s.sagas[i];
    var g' := g.(refund := Answer(g.refund, 200, PaymentBody(refundId, Refunded)));
    var p := Payment(refundId, g.row.orderId, -s.ledger[k].amount, Refunded, RefundKey(i));
    var flipped := s.ledger[k := s.ledger[k].(status := Refunded)];
    assert Charge(g') == Charge(g) && !Repaid(g) && Repaid(g');
    LedgerFlip(s.sagas, s.ledger, k);
    FlipKeepsTaken(s.ledger, k, RefundKey(i), refundId);
    LedgerRefund(s.sagas, flipped, i, g', p);
    assert Repay(s, i, k, refundId) == s.(ledger := flipped + [p], sagas := s.sagas[i := g']);
  }

  lemma {:induction false} RefundCommitKeepsInv(s: System, i: nat, k: nat, refundId: Id, initial: map<Item, int>)
    requires Inv(s, initial) && i < |s.sagas| && k < |s.ledger|
    requires s.sagas[i].refund.service.InFlight? && !Taken(s.ledger, RefundKey(i), refundId)
    requires s.ledger[k].amount == s.sagas[i].amount && !s.ledger[k].status.Declined?
    ensures Inv(Repay(s, i, k, refundId), initial)
  {
    RepayKeepsLedger(s, i, k, refundId);
    RepayKeepsRest(s, i, k, refundId, initial);
  }

  lemma {:induction false} RepayKeepsRest(s: System, i: nat, k: nat, refundId: Id, initial: map<Item, int>)
    requires SagasOk(s.sagas) && UniqueOrders(s.sagas) && WireOk(s.sagas, s.wire)
    requires StockOk(s.sagas, s.holds, s.stock, initial)
    requires i < |s.sagas| && k < |s.ledger| && s.sagas[i].refund.service.InFlight?
    ensures var s' := Repay(s, i, k, refundId);
      && SagasOk(s'.sagas) && UniqueOrders(s'.sagas) && WireOk(s'.sagas, s'.wire)
      && StockOk(s'.sagas, s'.holds, s'.stock, initial)
  {
    var g := s.sagas[i];
    var g' := Repay(s, i, k, refundId).sagas[i];
    RefundServed(g, 200, PaymentBody(refundId, Refunded));
    ServedKeepsSagas(s.sagas, s.wire, i, g');
    LedgerFramesStock(s.sagas, s.holds, s.stock, i, g', initial);
  }

  lemma {:induction false} FlipKeepsTaken(ledger: seq<Payment>, k: nat, key: Key, id: Id)
    requires k < |ledger| && !Taken(ledger, key, id)
    ensures !Taken(ledger[k := ledger[k].(status := Refunded)], key, id)
  {
  }

  lemma {:induction false} StockReserve(sagas: seq<Saga>, holds: seq<Hold>, stock: map<Item, int>, i: nat, g: Saga, h: Hold,
                                        initial: map<Item, int>)
    requires StockOk(sagas, holds, stock, initial) && UniqueOrders(sagas) && i < |sagas|
    requires h.key == ReserveKey(i) && h.orderId == sagas[i].row.orderId == g.row.orderId && h.items == g.items
    requires !HoldTaken(holds, h.key, h.reservationId)
    requires !Holding(sagas[i]) && Holding(g)
    ensures StockOk(sagas[i := g], holds + [h], Subtract(stock, h.items), initial)
  {
    var sagas', holds' := sagas[i := g], holds + [h];
    forall j | 0 <= j < |sagas'|
      ensures HoldsOf(holds', sagas'[j].row.orderId) == if Holding(sagas'[j]) then 1 else 0
    {
      HoldsAppend(holds, h, sagas'[j].row.orderId);
    }
    forall item ensures UnitsHeld(holds', item) == UnitsOfSagas(sagas', item) {
      HeldAppend(holds, h, item);
      UnitsOfUpdate(sagas, i, g, item);
    }
    forall item | item in initial
      ensures Subtract(stock, h.items)[item] == initial[item] - UnitsHeld(holds', item)
    {
      HeldAppend(holds, h, item);
    }
  }

  lemma {:induction false} ReserveRefused(s: System, i: nat, status: nat, body: Body, initial: map<Item, int>)
    requires Inv(s, initial) && i < |s.sagas| && s.sagas[i].reserve.service.InFlight?
    requires (status == 200 && body.ReservationBody? && body.reservationStatus == OutOfStock)
             || ((status == 422 || status == 500) && body.Detail?)
    ensures Inv(s.(sagas := s.sagas[i := s.sagas[i].(reserve := Answer(s.sagas[i].reserve, status, body))]), initial)
  {
    var g := s.sagas[i];
    ReserveServed(g, status, body);
    ReplyKeepsInv(s, i, g.(reserve := Answer(g.reserve, status, body)), initial);
  }

  lemma {:induction false} ReserveKeepsInv(s: System, i: nat, reservationId: Id, initial: map<Item, int>)
    requires Inv(s, initial) && i < |s.sagas|
    ensures Inv(ReserveStock(s, i, reservationId), initial)
  {
    var g := s.sagas[i];
    if g.reserve.service.InFlight? {
      if g.items == [] {
        ReserveRefused(s, i, 422, Detail, initial);
      } else if !Available(s.stock, g.items) {
        ReserveRefused(s, i, 200, ReservationBody(reservationId, OutOfStock), initial);
      } else if HoldTaken(s.holds, ReserveKey(i), reservationId) {
        ReserveRefused(s, i, 500, Detail, initial);
      } else {
        ReserveCommitKeepsInv(s, i, reservationId, initial);
      }
    }
  }

  lemma {:induction false} ReserveCommitKeepsInv(s: System, i: nat, reservationId: Id, initial: map<Item, int>)
    requires Inv(s, initial) && i < |s.sagas|
    requires var g := s.sagas[i];
      && g.reserve.service.InFlight? && g.items != [] && Available(s.stock, g.items)
      && !HoldTaken(s.holds, ReserveKey(i), reservationId)
    ensures Inv(ReserveStock(s, i, reservationId), initial)
  {
    var g := s.sagas[i];
    var g' := g.(reserve := Answer(g.reserve, 200, ReservationBody(reservationId, Reserved)));
    ReserveServed(g, 200, ReservationBody(reservationId, Reserved));
    ServedKeepsSagas(s.sagas, s.wire, i, g');
    StockReserve(s.sagas, s.holds, s.stock, i, g', Hold(reservationId, g.row.orderId, g.items, ReserveKey(i)), initial);
    ReserveFramesLedger(s.sagas, s.ledger, i, g');
  }

  /** A reservation does not concern the ledger. */
  lemma {:induction false} ReserveFramesLedger(sagas: seq<Saga>, ledger: seq<Payment>, i: nat, g: Saga)
    requires LedgerOk(sagas, ledger) && i < |sagas|
    requires g.row.orderId == sagas[i].row.orderId && g.amount == sagas[i].amount
    requires Charge(g) == Charge(sagas[i]) && Repaid(g) == Repaid(sagas[i])
    ensures LedgerOk(sagas[i := g], ledger)
  {
  }

  // ----- All actions, all runs -----

  lemma {:induction false} NextServes(s: System, a: Action)
    requires IsServe(a) && a.saga < |s.sagas|
    ensures a.ServeAuthorize? ==> Next(s, a) == AuthorizePayment(s, a.saga, a.paymentId, a.declined)
    ensures a.ServeReserve? ==> Next(s, a) == ReserveStock(s, a.saga, a.reservationId)
    ensures a.ServeRefund? ==> Next(s, a) == RefundPayment(s, a.saga, a.refundId)
  {
  }

  lemma {:induction false} ServeAuthorizeKeepsInv(s: System, a: Action, initial: map<Item, int>)
    requires Inv(s, initial) && a.ServeAuthorize?
    ensures Inv(Next(s, a), initial)
  {
    if a.saga < |s.sagas| {
      NextServes(s, a);
      AuthorizeKeepsInv(s, a.saga, a.paymentId, a.declined, initial);
    }
  }

  lemma {:induction false} ServeReserveKeepsInv(s: System, a: Action, initial: map<Item, int>)
    requires Inv(s, initial) && a.ServeReserve?
    ensures Inv(Next(s, a), initial)
  {
    if a.saga < |s.sagas| {
      NextServes(s, a);
      ReserveKeepsInv(s, a.saga, a.reservationId, initial);
    }
  }

  lemma {:induction false} ServeRefundKeepsInv(s: System, a: Action, initial: map<Item, int>)
    requires Inv(s, initial) && a.ServeRefund?
    ensures Inv(Next(s, a), initial)
  {
    if a.saga < |s.sagas| {
      NextServes(s, a);
      RefundKeepsInv(s, a.saga, a.refundId, initial);
    }
  }

  predicate IsServe(a: Action) {
    a.ServeAuthorize? || a.ServeReserve? || a.ServeRefund?
  }

  /** The seven actions that concern one orchestrator and no service. */
  lemma {:induction false} OrchestratorKeepsInv(s: System, a: Action, initial: map<Item, int>)
    requires Inv(s, initial) && !a.Start? && !IsServe(a)
    ensures Inv(Next(s, a), initial)
  {
    if SagaOf(a) < |s.sagas| { LocalKeepsInv(s, a, initial); }
  }

  lemma {:induction false} NextKeepsInv(s: System, a: Action, initial: map<Item, int>)
    requires Inv(s, initial)
    ensures Inv(Next(s, a), initial)
  {
    if a.Start? { StartKeepsInv(s, a, initial); }
    else if a.ServeAuthorize? { ServeAuthorizeKeepsInv(s, a, initial); }
    else if a.ServeReserve? { ServeReserveKeepsInv(s, a, initial); }
    else if a.ServeRefund? { ServeRefundKeepsInv(s, a, initial); }
    else { OrchestratorKeepsInv(s, a, initial); }
  }

  lemma {:induction false} RunKeepsInv(stock: map<Item, int>, actions: seq<Action>)
    ensures Inv(Run(Initial(stock), actions), stock)
  {
    if actions != [] {
      var before := actions[..|actions| - 1];
      RunKeepsInv(stock, before);
      NextKeepsInv(Run(Initial(stock), before), actions[|actions| - 1], stock);
    }
  }
}
