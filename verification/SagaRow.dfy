/** The saga row, its append-only step log and the durable transitions of one saga. */
module SagaRow {
  import opened Common
  import opened HttpAdapters

  datatype SagaState =
    | Created | PaymentPending | PaymentOk | PaymentFailed
    | InventoryPending | InventoryOk | InventoryFailed
    | EtaPending | EtaOk | EtaFailed
    | Confirmed | ConfirmedDegraded
    | Refunding | RefundedState | Cancelled | ManualReview

  datatype StepKind = Forward | Compensate

  /** The `step_name` column, one constructor per literal the code writes. */
  datatype StepName =
    | SagaStarted | EtaReceivedConfirmed | EtaDegradedConfirmed | PaymentError
    | CancelledPaymentError | PaymentAuthorized | PaymentDeclined | CancelledPaymentDeclined
    | InventoryError | InventoryReserved | InventoryOutOfStock | CompensateRefundStart
    | SagaCancelled | CompensateRefundFailed | CompensateRefundDone | InventoryReserveStart | EtaRequestStart

  datatype Step = Step(name: StepName, from: SagaState, to: SagaState, kind: StepKind)

  datatype Eta = Eta(minutes: real, lower: Option<real>, upper: Option<real>)

  datatype Row = Row(
    orderId: Id,
    state: SagaState,
    paymentId: Option<Id>,
    reservationId: Option<Id>,
    refundId: Option<Id>,
    eta: Option<Eta>,
    degraded: bool,
    completed: bool,
    steps: seq<Step>)

  /** What the ETA step observes: no service configured, an exception, or a (possibly empty) dictionary. */
  datatype EtaAnswer =
    | NoService
    | EtaRaised
    | EtaReply(minutes: Option<real>, lower: Option<real>, upper: Option<real>, degraded: Option<bool>)

  /** What the orchestrator learns between two commits. */
  datatype Input =
    | Continue
    | Authorization(auth: Outcome<Body>)
    | Reservation(reserve: Outcome<Body>)
    | Estimate(eta: EtaAnswer)
    | Refund(refund: Outcome<Body>)

  predicate Terminal(s: SagaState) {
    s.Confirmed? || s.ConfirmedDegraded? || s.Cancelled? || s.ManualReview?
  }

  // ----- Transitions -----

  function Fresh(orderId: Id): Row {
    Row(orderId, Created, None, None, None, None, false, false, [])
  }

  function Transition(r: Row, to: SagaState, name: StepName, kind: StepKind): Row {
    r.(state := to, steps := r.steps + [Step(name, r.state, to, kind)])
  }

  function Started(orderId: Id): Row {
    Transition(Fresh(orderId), PaymentPending, SagaStarted, Forward)
  }

  function GetOr<T>(o: Option<T>, default: T): T {
    if o.Some? then o.value else default
  }

  function OrElse<T>(o: Option<T>, default: T): Option<T> {
    Some(GetOr(o, default))
  }

  /** The reply is a truthy dictionary, carries an estimate and is not marked degraded. */
  predicate EtaUsable(a: EtaAnswer) {
    a.EtaReply? && a.minutes.Some? && !GetOr(a.degraded, false)
  }

  function AfterEta(r: Row, a: EtaAnswer): Row {
    if EtaUsable(a) then
      Transition(r.(eta := Some(Eta(a.minutes.value, a.lower, a.upper)), degraded := false, completed := true),
                 Confirmed, EtaReceivedConfirmed, Forward)
    else
      var eta := if a.EtaReply?
                 then Eta(GetOr(a.minutes, 32.0), OrElse(a.lower, 25.0), OrElse(a.upper, 40.0))
                 else Eta(32.0, Some(25.0), Some(40.0));
      Transition(r.(eta := Some(eta), degraded := true, completed := true),
                 ConfirmedDegraded, EtaDegradedConfirmed, Forward)
  }

  /** From ETA_PENDING: only an estimate that is not marked degraded confirms, and with exactly its figures; every other
      answer confirms in degraded mode with 32, 25 and 40 for what is missing. */
  lemma {:induction false} EtaDecides(r: Row, a: EtaAnswer)
    requires r.state.EtaPending?
    ensures var r' := Advance(r, Estimate(a));
      match a
      case EtaReply(Some(m), lower, upper, d) =>
        (if d == Some(true) then
           && r'.state.ConfirmedDegraded? && r'.degraded
           && r'.eta == Some(Eta(m, Some(if lower.Some? then lower.value else 25.0),
                                 Some(if upper.Some? then upper.value else 40.0)))
         else r'.state.Confirmed? && !r'.degraded && r'.eta == Some(Eta(m, lower, upper)))
      case EtaReply(None, lower, upper, _) =>
        && r'.state.ConfirmedDegraded? && r'.degraded
        && r'.eta == Some(Eta(32.0, Some(if lower.Some? then lower.value else 25.0),
                              Some(if upper.Some? then upper.value else 40.0)))
      case _ => r'.state.ConfirmedDegraded? && r'.degraded && r'.eta == Some(Eta(32.0, Some(25.0), Some(40.0)))
    ensures var r' := Advance(r, Estimate(a));
      r' == r.(state := r'.state, eta := r'.eta, degraded := r'.degraded, completed := true, steps := r'.steps)
  {
  }

  /** A 404 on the refund would be recorded as a refund without an id; that no saga gets one has to be proved. */
  lemma {:induction false} NotFoundWouldPass(r: Row)
    requires r.state.Refunding?
    ensures var r' := Advance(r, Refund(Lenient(Response(404, Detail))));
      r'.state.Cancelled? && r'.refundId.None? && Visits(r'.steps, RefundedState)
  {
    var r' := Advance(r, Refund(Lenient(Response(404, Detail))));
    assert r'.steps[|r.steps|].to == RefundedState;
  }

  function AfterAuthorize(r: Row, a: Outcome<Body>): Row {
    match a
    case Raise =>
      Transition(Transition(r.(completed := true), PaymentFailed, PaymentError, Forward),
                 Cancelled, CancelledPaymentError, Forward)
    case Return(b) =>
      if b.PaymentBody? && b.paymentStatus == Authorized then
        Transition(r.(paymentId := Some(b.paymentId)), PaymentOk, PaymentAuthorized, Forward)
      else
        Transition(Transition(r.(completed := true), PaymentFailed, PaymentDeclined, Forward),
                   Cancelled, CancelledPaymentDeclined, Forward)
  }

  function AfterReserve(r: Row, a: Outcome<Body>): Row {
    match a
    case Raise => Transition(r, InventoryFailed, InventoryError, Forward)
    case Return(b) =>
      if b.ReservationBody? && b.reservationStatus == Reserved then
        Transition(r.(reservationId := Some(b.reservationId)), InventoryOk, InventoryReserved, Forward)
      else
        Transition(r, InventoryFailed, InventoryOutOfStock, Forward)
  }

  function BeginCompensation(r: Row): Row {
    if r.paymentId.Some? then Transition(r, Refunding, CompensateRefundStart, Compensate)
    else Transition(r.(completed := true), Cancelled, SagaCancelled, Compensate)
  }

  function AfterRefund(r: Row, a: Outcome<Body>): Row {
    match a
    case Raise => Transition(r.(completed := true), ManualReview, CompensateRefundFailed, Compensate)
    case Return(b) =>
      var id := if b.PaymentBody? then Some(b.paymentId) else None;
      Transition(Transition(r.(refundId := id, completed := true), RefundedState, CompensateRefundDone, Compensate),
                 Cancelled, SagaCancelled, Compensate)
  }

  /** The row made durable by the next commit. */
  function Advance(r: Row, i: Input): Row {
    match i
    case Continue =>
      if r.state.PaymentOk? then Transition(r, InventoryPending, InventoryReserveStart, Forward)
      else if r.state.InventoryOk? then Transition(r, EtaPending, EtaRequestStart, Forward)
      else if r.state.InventoryFailed? then BeginCompensation(r)
      else r
    case Authorization(a) => if r.state.PaymentPending? then AfterAuthorize(r, a) else r
    case Reservation(a) => if r.state.InventoryPending? then AfterReserve(r, a) else r
    case Estimate(a) => if r.state.EtaPending? then AfterEta(r, a) else r
    case Refund(a) => if r.state.Refunding? then AfterRefund(r, a) else r
  }

  // ----- The shape of the log -----

  /** The transition graph of the state machine. */
  predicate Edge(from: SagaState, to: SagaState) {
    match from
    case Created => to == PaymentPending
    case PaymentPending => to == PaymentOk || to == PaymentFailed
    case PaymentFailed => to == Cancelled
    case PaymentOk => to == InventoryPending
    case InventoryPending => to == InventoryOk || to == InventoryFailed
    case InventoryOk => to == EtaPending
    case EtaPending => to == Confirmed || to == ConfirmedDegraded
    case InventoryFailed => to == Refunding
    case Refunding => to == RefundedState || to == ManualReview
    case RefundedState => to == Cancelled
    case _ => false
  }

  /** Longest distance from CREATED; strictly increasing along every edge, hence the graph is acyclic. */
  function Depth(s: SagaState): nat {
    match s
    case Created => 0
    case PaymentPending => 1
    case PaymentOk => 2
    case PaymentFailed => 2
    case InventoryPending => 3
    case InventoryOk => 4
    case InventoryFailed => 4
    case EtaPending => 5
    case Refunding => 5
    case Cancelled => 7
    case _ => 6
  }

  /** The state the first `k` entries of a log leave the saga in. */
  function StateAfter(steps: seq<Step>, k: nat): SagaState
    requires k <= |steps|
  {
    if k == 0 then Created else steps[k - 1].to
  }

  function EndOf(steps: seq<Step>): SagaState {
    StateAfter(steps, |steps|)
  }

  /** Each entry leaves from the state the entries before it reached, along an edge of the graph. */
  predicate Chain(steps: seq<Step>) {
    forall k {:trigger StateAfter(steps, k)} :: 0 <= k < |steps| ==>
      steps[k].from == StateAfter(steps, k) && Edge(steps[k].from, steps[k].to)
  }

  lemma {:induction false} ChainPrefix(steps: seq<Step>)
    requires Chain(steps) && steps != []
    ensures Chain(steps[..|steps| - 1])
    ensures Edge(EndOf(steps[..|steps| - 1]), EndOf(steps))
  {
    var before := steps[..|steps| - 1];
    forall k | 0 <= k < |before|
      ensures before[k].from == StateAfter(before, k) && Edge(before[k].from, before[k].to)
    {
      assert before[k] == steps[k] && StateAfter(before, k) == StateAfter(steps, k);
    }
    assert steps[|steps| - 1].from == StateAfter(steps, |steps| - 1) == EndOf(before);
  }

  predicate CompensationIsSuffix(steps: seq<Step>) {
    forall j, k :: 0 <= j < k < |steps| && steps[j].kind == Compensate ==> steps[k].kind == Compensate
  }

  predicate Visits(steps: seq<Step>, s: SagaState) {
    exists k :: 0 <= k < |steps| && steps[k].to == s
  }

  /** What the log of every durable row looks like. */
  ghost predicate GoodLog(r: Row) {
    && r.steps != []
    && Chain(r.steps)
    && r.steps[|r.steps| - 1].to == r.state
    && CompensationIsSuffix(r.steps)
  }

  /** A chain is no longer than the depth of the state it ends in. */
  lemma {:induction false} ChainIsShort(steps: seq<Step>)
    requires Chain(steps) && steps != []
    ensures |steps| <= Depth(steps[|steps| - 1].to) <= 7
  {
    var n := |steps|;
    ChainPrefix(steps);
    if n > 1 {
      ChainIsShort(steps[..n - 1]);
    }
  }

  /** Whatever the ETA step answers, a saga that reached it is never cancelled: from ETA_PENDING every chain
      can only end confirmed. */
  lemma {:induction false} EtaNeverCancels(steps: seq<Step>)
    requires Chain(steps) && steps != [] && Visits(steps, EtaPending)
    ensures EndOf(steps).EtaPending? || EndOf(steps).Confirmed? || EndOf(steps).ConfirmedDegraded?
    ensures !Visits(steps, Cancelled) && !Visits(steps, InventoryFailed)
  {
    var n := |steps|;
    var k :| 0 <= k < n && steps[k].to == EtaPending;
    ChainPrefix(steps);
    if k < n - 1 {
      assert steps[..n - 1][k].to == EtaPending;
      EtaNeverCancels(steps[..n - 1]);
      assert !Visits(steps, Cancelled) by {
        forall j | 0 <= j < n ensures steps[j].to != Cancelled && steps[j].to != InventoryFailed {
          if j < n - 1 { assert steps[..n - 1][j] == steps[j]; }
        }
      }
    } else {
      BeforeEta(steps);
    }
  }

  predicate OnTheWayToEta(s: SagaState) {
    s.PaymentPending? || s.PaymentOk? || s.InventoryPending? || s.InventoryOk? || s.EtaPending?
  }

  lemma {:induction false} BeforeEta(steps: seq<Step>)
    requires Chain(steps) && steps != []
    requires OnTheWayToEta(EndOf(steps))
    ensures forall j :: 0 <= j < |steps| ==> OnTheWayToEta(steps[j].to)
  {
    var n := |steps|;
    ChainPrefix(steps);
    if n > 1 {
      ChainPrefix(steps[..n - 1]);
      BeforeEta(steps[..n - 1]);
      forall j | 0 <= j < n - 1
        ensures OnTheWayToEta(steps[j].to)
      {
        assert steps[..n - 1][j] == steps[j];
      }
    }
  }

  // ----- What every durable row satisfies -----

  predicate PaymentRecorded(s: SagaState) {
    !s.Created? && !s.PaymentPending? && !s.PaymentFailed? && !s.Cancelled?
  }

  predicate AllForward(steps: seq<Step>) {
    forall k :: 0 <= k < |steps| ==> steps[k].kind == Forward
  }

  /** The states a commit can leave behind: the others are only passed through inside one transaction, or are
      declared and never used. */
  predicate Durable(s: SagaState) {
    !s.Created? && !s.PaymentFailed? && !s.RefundedState? && !s.EtaOk? && !s.EtaFailed?
  }

  predicate Compensated(s: SagaState) {
    s.Refunding? || s.Cancelled? || s.ManualReview?
  }

  ghost predicate GoodRow(r: Row) {
    && GoodLog(r)
    && Durable(r.state)
    && (!Compensated(r.state) ==> AllForward(r.steps))
    && (PaymentRecorded(r.state) ==> r.paymentId.Some?)
    && (r.state == PaymentPending ==> r.paymentId.None?)
    && (r.completed <==> Terminal(r.state))
    && (r.state == Confirmed ==> r.eta.Some? && !r.degraded)
    && (r.state == ConfirmedDegraded ==> r.eta.Some? && r.degraded)
  }

  lemma {:induction false} StartedIsGood(orderId: Id)
    ensures GoodRow(Started(orderId)) && Started(orderId).state == PaymentPending
  {
    var r := Started(orderId);
    assert r.state.PaymentPending? && r.paymentId.None? && !r.completed;
    assert r.steps == [Step(SagaStarted, Created, PaymentPending, Forward)];
    assert StateAfter(r.steps, 0) == Created && StateAfter(r.steps, 1) == PaymentPending;
  }

  /** One transition along an edge keeps the chain. */
  lemma {:induction false} TransitionKeepsLog(r: Row, to: SagaState, name: StepName, kind: StepKind)
    requires GoodLog(r) && Edge(r.state, to)
    requires kind == Compensate || AllForward(r.steps)
    ensures GoodLog(Transition(r, to, name, kind))
    ensures kind == Forward ==> AllForward(Transition(r, to, name, kind).steps)
  {
    var r' := Transition(r, to, name, kind);
    forall k | 0 <= k < |r'.steps|
      ensures r'.steps[k].from == StateAfter(r'.steps, k) && Edge(r'.steps[k].from, r'.steps[k].to)
    {
      if k < |r.steps| { assert r'.steps[k] == r.steps[k] && StateAfter(r'.steps, k) == StateAfter(r.steps, k); }
    }
  }

  lemma {:induction false} AuthorizeKeepsRow(r: Row, a: Outcome<Body>)
    requires GoodRow(r) && r.state == PaymentPending
    ensures GoodRow(AfterAuthorize(r, a))
  {
    if a.Return? && a.value.PaymentBody? && a.value.paymentStatus == Authorized {
      TransitionKeepsLog(r.(paymentId := Some(a.value.paymentId)), PaymentOk, PaymentAuthorized, Forward);
    } else {
      var name := if a.Raise? then PaymentError else PaymentDeclined;
      var name' := if a.Raise? then CancelledPaymentError else CancelledPaymentDeclined;
      var r' := r.(completed := true);
      TransitionKeepsLog(r', PaymentFailed, name, Forward);
      TransitionKeepsLog(Transition(r', PaymentFailed, name, Forward), Cancelled, name', Forward);
    }
  }

  lemma {:induction false} ReserveKeepsRow(r: Row, a: Outcome<Body>)
    requires GoodRow(r) && r.state == InventoryPending
    ensures GoodRow(AfterReserve(r, a))
  {
    if a.Return? && a.value.ReservationBody? && a.value.reservationStatus == Reserved {
      TransitionKeepsLog(r.(reservationId := Some(a.value.reservationId)), InventoryOk, InventoryReserved, Forward);
    } else {
      TransitionKeepsLog(r, InventoryFailed, if a.Raise? then InventoryError else InventoryOutOfStock, Forward);
    }
  }

  lemma {:induction false} EtaKeepsRow(r: Row, a: EtaAnswer)
    requires GoodRow(r) && r.state == EtaPending
    ensures GoodRow(AfterEta(r, a))
  {
    if EtaUsable(a) {
      TransitionKeepsLog(r, Confirmed, EtaReceivedConfirmed, Forward);
    } else {
      TransitionKeepsLog(r, ConfirmedDegraded, EtaDegradedConfirmed, Forward);
    }
  }

  lemma {:induction false} RefundKeepsRow(r: Row, a: Outcome<Body>)
    requires GoodRow(r) && r.state == Refunding
    ensures GoodRow(AfterRefund(r, a))
  {
    if a.Raise? {
      TransitionKeepsLog(r.(completed := true), ManualReview, CompensateRefundFailed, Compensate);
    } else {
      var id := if a.value.PaymentBody? then Some(a.value.paymentId) else None;
      var r' := r.(refundId := id, completed := true);
      TransitionKeepsLog(r', RefundedState, CompensateRefundDone, Compensate);
      TransitionKeepsLog(Transition(r', RefundedState, CompensateRefundDone, Compensate),
                         Cancelled, SagaCancelled, Compensate);
    }
  }

  /** Every commit keeps the row good. */
  lemma {:induction false} AdvanceKeepsRow(r: Row, i: Input)
    requires GoodRow(r)
    ensures GoodRow(Advance(r, i))
  {
    match i
    case Continue =>
      if r.state.PaymentOk? {
        TransitionKeepsLog(r, InventoryPending, InventoryReserveStart, Forward);
      } else if r.state.InventoryOk? {
        TransitionKeepsLog(r, EtaPending, EtaRequestStart, Forward);
      } else if r.state.InventoryFailed? {
        TransitionKeepsLog(r, Refunding, CompensateRefundStart, Compensate);
      }
    case Authorization(a) => if r.state.PaymentPending? { AuthorizeKeepsRow(r, a); }
    case Reservation(a) => if r.state.InventoryPending? { ReserveKeepsRow(r, a); }
    case Estimate(a) => if r.state.EtaPending? { EtaKeepsRow(r, a); }
    case Refund(a) => if r.state.Refunding? { RefundKeepsRow(r, a); }
  }

  /** A commit only appends to the log: every earlier entry stays where it was. */
  lemma {:induction false} AdvanceExtends(r: Row, i: Input, k: nat)
    requires k < |r.steps|
    ensures k < |Advance(r, i).steps| && Advance(r, i).steps[k] == r.steps[k]
  {
  }

  lemma {:induction false} TransitionVisits(r: Row, to: SagaState, name: StepName, kind: StepKind, s: SagaState)
    ensures Visits(Transition(r, to, name, kind).steps, s) ==> Visits(r.steps, s) || s == to
  {
    var steps' := Transition(r, to, name, kind).steps;
    if k :| 0 <= k < |steps'| && steps'[k].to == s && s != to { assert r.steps[k].to == s; }
  }

  /** REFUNDED enters the log only by a commit that also cancels the saga, after a refund call that returned. */
  lemma {:induction false} AdvanceRefunds(r: Row, i: Input)
    requires Visits(Advance(r, i).steps, RefundedState)
    ensures Visits(r.steps, RefundedState)
            || (r.state.Refunding? && i.Refund? && i.refund.Return? && Advance(r, i).state.Cancelled?)
  {
    forall r: Row, to: SagaState, name: StepName, kind: StepKind
      ensures Visits(Transition(r, to, name, kind).steps, RefundedState) ==> Visits(r.steps, RefundedState) || to.RefundedState?
    {
      TransitionVisits(r, to, name, kind, RefundedState);
    }
  }

  predicate Logged(steps: seq<Step>, name: StepName) {
    exists k :: 0 <= k < |steps| && steps[k].name == name
  }

  lemma {:induction false} TransitionLogs(r: Row, to: SagaState, name: StepName, kind: StepKind, n: StepName)
    ensures Logged(Transition(r, to, name, kind).steps, n) <==> Logged(r.steps, n) || n == name
  {
    var steps' := Transition(r, to, name, kind).steps;
    assert steps'[|r.steps|].name == name;
    if Logged(r.steps, n) {
      var k :| 0 <= k < |r.steps| && r.steps[k].name == n;
      assert steps'[k].name == n;
    }
  }

  /** The failures of the two forward calls that a commit puts on record. */
  predicate Records(r: Row, i: Input, n: StepName) {
    match n
    case PaymentError => r.state.PaymentPending? && i.Authorization? && i.auth.Raise?
    case PaymentDeclined =>
      r.state.PaymentPending? && i.Authorization? && i.auth.Return?
      && !(i.auth.value.PaymentBody? && i.auth.value.paymentStatus == Authorized)
    case InventoryError => r.state.InventoryPending? && i.Reservation? && i.reserve.Raise?
    case InventoryOutOfStock =>
      r.state.InventoryPending? && i.Reservation? && i.reserve.Return?
      && !(i.reserve.value.ReservationBody? && i.reserve.value.reservationStatus == Reserved)
    case _ => false
  }

  predicate IsFailure(n: StepName) {
    n.PaymentError? || n.PaymentDeclined? || n.InventoryError? || n.InventoryOutOfStock?
  }

  lemma {:induction false} AuthorizeLogs(r: Row, a: Outcome<Body>, n: StepName)
    requires IsFailure(n)
    ensures Logged(AfterAuthorize(r, a).steps, n)
      <==> Logged(r.steps, n) || Records(r.(state := PaymentPending), Authorization(a), n)
  {
    var done := r.(completed := true);
    if a.Return? && a.value.PaymentBody? && a.value.paymentStatus == Authorized {
      TransitionLogs(r.(paymentId := Some(a.value.paymentId)), PaymentOk, PaymentAuthorized, Forward, n);
    } else {
      var name := if a.Raise? then PaymentError else PaymentDeclined;
      var name' := if a.Raise? then CancelledPaymentError else CancelledPaymentDeclined;
      TransitionLogs(done, PaymentFailed, name, Forward, n);
      TransitionLogs(Transition(done, PaymentFailed, name, Forward), Cancelled, name', Forward, n);
    }
  }

  lemma {:induction false} ReserveLogs(r: Row, a: Outcome<Body>, n: StepName)
    requires IsFailure(n)
    ensures Logged(AfterReserve(r, a).steps, n)
      <==> Logged(r.steps, n) || Records(r.(state := InventoryPending), Reservation(a), n)
  {
    if a.Return? && a.value.ReservationBody? && a.value.reservationStatus == Reserved {
      TransitionLogs(r.(reservationId := Some(a.value.reservationId)), InventoryOk, InventoryReserved, Forward, n);
    } else {
      TransitionLogs(r, InventoryFailed, if a.Raise? then InventoryError else InventoryOutOfStock, Forward, n);
    }
  }

  lemma {:induction false} RefundLogs(r: Row, a: Outcome<Body>, n: StepName)
    requires IsFailure(n)
    ensures Logged(AfterRefund(r, a).steps, n) <==> Logged(r.steps, n)
  {
    if a.Raise? {
      TransitionLogs(r.(completed := true), ManualReview, CompensateRefundFailed, Compensate, n);
    } else {
      var id := if a.value.PaymentBody? then Some(a.value.paymentId) else None;
      var r' := r.(refundId := id, completed := true);
      TransitionLogs(r', RefundedState, CompensateRefundDone, Compensate, n);
      TransitionLogs(Transition(r', RefundedState, CompensateRefundDone, Compensate), Cancelled, SagaCancelled, Compensate, n);
    }
  }

  lemma {:induction false} EtaLogs(r: Row, a: EtaAnswer, n: StepName)
    requires IsFailure(n)
    ensures Logged(AfterEta(r, a).steps, n) <==> Logged(r.steps, n)
  {
    TransitionLogs(r, Confirmed, EtaReceivedConfirmed, Forward, n);
    TransitionLogs(r, ConfirmedDegraded, EtaDegradedConfirmed, Forward, n);
  }

  lemma {:induction false} ContinueLogs(r: Row, n: StepName)
    requires IsFailure(n)
    ensures Logged(Advance(r, Continue).steps, n) <==> Logged(r.steps, n)
  {
    TransitionLogs(r, InventoryPending, InventoryReserveStart, Forward, n);
    TransitionLogs(r, EtaPending, EtaRequestStart, Forward, n);
    TransitionLogs(r, Refunding, CompensateRefundStart, Compensate, n);
    TransitionLogs(r.(completed := true), Cancelled, SagaCancelled, Compensate, n);
  }

  /** A failure is in the log from the commit on that records it, and not otherwise. */
  lemma {:induction false} AdvanceLogs(r: Row, i: Input, n: StepName)
    requires IsFailure(n)
    ensures Logged(Advance(r, i).steps, n) <==> Logged(r.steps, n) || Records(r, i, n)
  {
    match i
    case Continue => ContinueLogs(r, n);
    case Authorization(a) => if r.state.PaymentPending? { AuthorizeLogs(r, a, n); }
    case Reservation(a) => if r.state.InventoryPending? { ReserveLogs(r, a, n); }
    case Estimate(a) => if r.state.EtaPending? { EtaLogs(r, a, n); }
    case Refund(a) => if r.state.Refunding? { RefundLogs(r, a, n); }
  }

  /** A commit that changes the row moves the saga deeper into the acyclic graph, so no saga commits more than
      seven times. */
  lemma {:induction false} AdvanceDescends(r: Row, i: Input)
    ensures Advance(r, i) == r || Depth(r.state) < Depth(Advance(r, i).state)
  {
  }
}
