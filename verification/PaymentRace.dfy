/** Concurrent authorizations and refunds: cache check, transaction and cache fill are separate steps, and restarts
    lose the cache. */
module PaymentRace {
  import opened Common

  type Id = string
  type Key = string

  datatype Status = Authorized | Declined | Refunded

  datatype Request =
    | Authorize(key: Key, orderId: Id, amount: int, declined: bool)
    | Refund(key: Key, orderId: Id, paymentId: Id)

  /** A ledger row; `worker` is the request that inserted it. */
  datatype Payment = Payment(paymentId: Id, orderId: Id, amount: int, status: Status, key: Key, worker: nat)

  datatype Response = Response(paymentId: Id, orderId: Id, amount: int, status: Status, key: Key)

  datatype Reply = Done(response: Response) | Replayed(response: Response) | NotFound | Invalid | Failed | Killed(committed: bool)

  /** `Prepared` holds what the session will flush: the new row, and for a refund the row whose status it edited. */
  datatype Pc =
    | Idle
    | Checked
    | Prepared(row: Payment, flips: Option<nat>)
    | Committed(response: Response)
    | Finished(reply: Reply)

  datatype Worker = Worker(req: Request, pc: Pc)

  datatype System = System(ledger: seq<Payment>, cache: map<Key, Response>, workers: seq<Worker>)

  /** `draw` is the random id a step may use: nothing is assumed of it. */
  datatype Action = Step(worker: nat, draw: Id) | Abort(worker: nat) | Restart

  // ----- Steps -----

  predicate KeyTaken(ledger: seq<Payment>, key: Key) {
    exists k :: 0 <= k < |ledger| && ledger[k].key == key
  }

  predicate HasPayment(ledger: seq<Payment>, id: Id) {
    exists k :: 0 <= k < |ledger| && ledger[k].paymentId == id
  }

  function Find(ledger: seq<Payment>, id: Id, from: nat): (at: Option<nat>)
    requires from <= |ledger|
    ensures at.Some? ==> at.value < |ledger| && ledger[at.value].paymentId == id
    ensures at.None? ==> forall k :: from <= k < |ledger| ==> ledger[k].paymentId != id
    decreases |ledger| - from
  {
    if from == |ledger| then None
    else if ledger[from].paymentId == id then Some(from)
    else Find(ledger, id, from + 1)
  }

  function FirstStatus(req: Request): Status {
    match req
    case Authorize(_, _, _, declined) => if declined then Declined else Authorized
    case Refund(_, _, _) => Refunded
  }

  function Update(s: System, w: nat, pc: Pc): System
    requires w < |s.workers|
  {
    s.(workers := s.workers[w := s.workers[w].(pc := pc)])
  }

  function CheckCache(s: System, w: nat): System
    requires w < |s.workers|
  {
    var req := s.workers[w].req;
    if req.Authorize? && req.amount <= 0 then Update(s, w, Finished(Invalid))
    else if req.key in s.cache then Update(s, w, Finished(Replayed(s.cache[req.key])))
    else Update(s, w, Checked)
  }

  /** The body of the transaction, up to but excluding its commit. */
  function Prepare(s: System, w: nat, draw: Id): System
    requires w < |s.workers|
  {
    var req := s.workers[w].req;
    match req
    case Authorize(key, orderId, amount, _) =>
      Update(s, w, Prepared(Payment(draw, orderId, amount, FirstStatus(req), key, w), None))
    case Refund(key, orderId, paymentId) =>
      match Find(s.ledger, paymentId, 0)
      case None => Update(s, w, Finished(NotFound))
      case Some(k) => Update(s, w, Prepared(Payment(draw, orderId, -s.ledger[k].amount, Refunded, key, w), Some(k)))
  }

  function Flip(ledger: seq<Payment>, flips: Option<nat>): seq<Payment> {
    if flips.Some? && flips.value < |ledger| then ledger[flips.value := ledger[flips.value].(status := Refunded)] else ledger
  }

  /** The response reports a refund with the positive amount of the original. */
  function ResponseFor(row: Payment, req: Request): Response {
    Response(row.paymentId, row.orderId, if req.Refund? then -row.amount else row.amount, row.status, row.key)
  }

  /** A taken key or a taken id makes the flush fail: neither the row nor the status edit reaches the table. */
  predicate Refused(ledger: seq<Payment>, row: Payment) {
    KeyTaken(ledger, row.key) || HasPayment(ledger, row.paymentId)
  }

  function CommitAll(s: System, w: nat): System
    requires w < |s.workers| && s.workers[w].pc.Prepared?
  {
    var wk := s.workers[w];
    if Refused(s.ledger, wk.pc.row) then Update(s, w, Finished(Failed))
    else Update(s, w, Committed(ResponseFor(wk.pc.row, wk.req))).(ledger := Flip(s.ledger, wk.pc.flips) + [wk.pc.row])
  }

  function StepWorker(s: System, w: nat, draw: Id): System
    requires w < |s.workers|
  {
    var wk := s.workers[w];
    match wk.pc
    case Idle => CheckCache(s, w)
    case Checked => Prepare(s, w, draw)
    case Prepared(_, _) => CommitAll(s, w)
    case Committed(response) => Update(s, w, Finished(Done(response))).(cache := s.cache[wk.req.key := response])
    case Finished(_) => s
  }

  function Kill(wk: Worker): Worker {
    if wk.pc.Finished? then wk else wk.(pc := Finished(Killed(wk.pc.Committed?)))
  }

  function Next(s: System, a: Action): System {
    match a
    case Step(w, draw) => if w < |s.workers| then StepWorker(s, w, draw) else s
    case Abort(w) =>
      if w < |s.workers| && (s.workers[w].pc.Checked? || s.workers[w].pc.Prepared?) then Update(s, w, Finished(Failed)) else s
    case Restart => s.(cache := map[], workers := Map(Kill, s.workers))
  }

  /** A restart forgets the cache and every request under way; an abort forgets one; the ledger stays. */
  lemma {:induction false} WhatIsForgotten(s: System, w: nat)
    ensures var s' := Next(s, Restart);
      s'.cache == map[] && s'.ledger == s.ledger && forall v :: 0 <= v < |s'.workers| ==> s'.workers[v].pc.Finished?
    ensures var s' := Next(s, Abort(w)); s'.cache == s.cache && s'.ledger == s.ledger
    ensures w < |s.workers| && (s.workers[w].pc.Checked? || s.workers[w].pc.Prepared?) ==>
      Next(s, Abort(w)).workers == s.workers[w := s.workers[w].(pc := Finished(Failed))]
  {
  }

  function Run(s: System, actions: seq<Action>): System {
    if actions == [] then s else Next(Run(s, actions[..|actions| - 1]), actions[|actions| - 1])
  }

  function Initial(workers: seq<Worker>): System {
    System([], map[], workers)
  }

  predicate Fresh(workers: seq<Worker>) {
    forall w :: 0 <= w < |workers| ==> workers[w].pc.Idle?
  }

  // ----- The invariant -----

  predicate HasCommitted(wk: Worker) {
    wk.pc.Committed? || (wk.pc.Finished? && (wk.pc.reply.Done? || wk.pc.reply == Killed(true)))
  }

  /** Some committed row is a refund of this payment. */
  predicate IsRefunded(ledger: seq<Payment>, workers: seq<Worker>, id: Id) {
    exists j :: 0 <= j < |ledger| && ledger[j].worker < |workers|
                && workers[ledger[j].worker].req.Refund? && workers[ledger[j].worker].req.paymentId == id
  }

  /** The status a request's row is inserted with and its response reports. */
  predicate StatusFits(req: Request, status: Status) {
    match req
    case Authorize(_, _, _, declined) => (status.Declined? <==> declined) && (status.Authorized? <==> !declined)
    case Refund(_, _, _) => status.Refunded?
  }

  predicate RowNamed(p: Payment, workers: seq<Worker>, key: Key, r: Response) {
    && p.key == key == r.key && p.paymentId == r.paymentId && p.orderId == r.orderId && p.worker < |workers|
    && r.amount == (if workers[p.worker].req.Refund? then -p.amount else p.amount)
    && StatusFits(workers[p.worker].req, r.status)
  }

  /** The committed row with this key is the one the response reports. */
  predicate Names(ledger: seq<Payment>, workers: seq<Worker>, key: Key, r: Response) {
    exists k :: 0 <= k < |ledger| && RowNamed(ledger[k], workers, key, r)
  }

  predicate PreparedOk(s: System, w: nat)
    requires w < |s.workers|
  {
    var wk := s.workers[w];
    wk.pc.Prepared? ==>
      var row, flips := wk.pc.row, wk.pc.flips;
      && row.worker == w && row.key == wk.req.key && row.orderId == wk.req.orderId && StatusFits(wk.req, row.status)
      && (wk.req.Authorize? ==> flips.None? && row.amount == wk.req.amount)
      && (wk.req.Refund? ==>
            && flips.Some? && flips.value < |s.ledger|
            && s.ledger[flips.value].paymentId == wk.req.paymentId && row.amount == -s.ledger[flips.value].amount)
  }

  /** The response of a request that has one, first or replayed. */
  function Answer(pc: Pc): Option<Response> {
    match pc
    case Committed(r) => Some(r)
    case Finished(Done(r)) => Some(r)
    case Finished(Replayed(r)) => Some(r)
    case _ => None
  }

  predicate AnswerOk(ledger: seq<Payment>, workers: seq<Worker>, wk: Worker) {
    Answer(wk.pc).Some? ==> Names(ledger, workers, wk.req.key, Answer(wk.pc).value)
  }

  ghost predicate WorkersOk(s: System) {
    forall w :: 0 <= w < |s.workers| ==> PreparedOk(s, w) && AnswerOk(s.ledger, s.workers, s.workers[w])
  }

  ghost predicate CacheOk(s: System) {
    forall key :: key in s.cache ==> Names(s.ledger, s.workers, key, s.cache[key])
  }

  predicate HasOriginal(ledger: seq<Payment>, id: Id, amount: int) {
    exists k :: 0 <= k < |ledger| && ledger[k].paymentId == id && ledger[k].amount == amount
  }

  predicate OwnsRow(ledger: seq<Payment>, w: nat) {
    exists k :: 0 <= k < |ledger| && ledger[k].worker == w
  }

  /** A row is what a request that got past its commit asked for: an authorization has its order and amount, a refund the
      negated amount of the payment it names. The status left its first value only by a committed refund. */
  predicate RowOk(ledger: seq<Payment>, workers: seq<Worker>, k: nat)
    requires k < |ledger|
  {
    var p := ledger[k];
    && p.worker < |workers| && HasCommitted(workers[p.worker])
    && p.key == workers[p.worker].req.key && p.orderId == workers[p.worker].req.orderId
    && (if IsRefunded(ledger, workers, p.paymentId) then p.status.Refunded? else StatusFits(workers[p.worker].req, p.status))
    && (workers[p.worker].req.Authorize? ==> p.amount == workers[p.worker].req.amount)
    && (workers[p.worker].req.Refund? ==> HasOriginal(ledger, workers[p.worker].req.paymentId, -p.amount))
  }

  ghost predicate RowsOk(s: System) {
    && (forall j, k :: 0 <= j < k < |s.ledger| ==>
          s.ledger[j].key != s.ledger[k].key && s.ledger[j].paymentId != s.ledger[k].paymentId
          && s.ledger[j].worker != s.ledger[k].worker)
    && (forall k :: 0 <= k < |s.ledger| ==> RowOk(s.ledger, s.workers, k))
    && (forall w :: 0 <= w < |s.workers| && HasCommitted(s.workers[w]) ==> OwnsRow(s.ledger, w))
  }

  ghost predicate Inv(s: System) {
    WorkersOk(s) && CacheOk(s) && RowsOk(s)
  }

  // ----- Steps that write no row -----

  predicate SameRequests(a: seq<Worker>, b: seq<Worker>) {
    |a| == |b| && forall w :: 0 <= w < |a| ==> a[w].req == b[w].req
  }

  lemma {:induction false} NamesFrame(ledger: seq<Payment>, a: seq<Worker>, b: seq<Worker>, key: Key, r: Response)
    requires SameRequests(a, b) && Names(ledger, a, key, r)
    ensures Names(ledger, b, key, r)
  {
    var k :| 0 <= k < |ledger| && RowNamed(ledger[k], a, key, r);
    assert RowNamed(ledger[k], b, key, r);
  }

  lemma {:induction false} RefundedFrame(ledger: seq<Payment>, a: seq<Worker>, b: seq<Worker>, id: Id)
    requires SameRequests(a, b)
    ensures IsRefunded(ledger, a, id) == IsRefunded(ledger, b, id)
  {
  }

  lemma {:induction false} RowsFrame(s: System, workers: seq<Worker>)
    requires RowsOk(s) && SameRequests(s.workers, workers)
    requires forall w :: 0 <= w < |workers| ==> HasCommitted(s.workers[w]) == HasCommitted(workers[w])
    ensures RowsOk(s.(workers := workers))
  {
    forall k | 0 <= k < |s.ledger| ensures RowOk(s.ledger, workers, k) {
      assert RowOk(s.ledger, s.workers, k);
      RefundedFrame(s.ledger, s.workers, workers, s.ledger[k].paymentId);
    }
  }

  lemma {:induction false} QuietKeepsInv(s: System, w: nat, pc: Pc, cache: map<Key, Response>)
    requires Inv(s) && w < |s.workers| && AnswerOk(s.ledger, s.workers, s.workers[w].(pc := pc))
    requires HasCommitted(s.workers[w]) == HasCommitted(s.workers[w].(pc := pc))
    requires PreparedOk(Update(s, w, pc), w)
    requires forall key :: key in cache ==> Names(s.ledger, s.workers, key, cache[key])
    ensures Inv(Update(s, w, pc).(cache := cache))
  {
    var s' := Update(s, w, pc).(cache := cache);
    RowsFrame(s, s'.workers);
    forall key | key in cache ensures Names(s'.ledger, s'.workers, key, cache[key]) {
      NamesFrame(s.ledger, s.workers, s'.workers, key, cache[key]);
    }
    forall v | 0 <= v < |s'.workers|
      ensures PreparedOk(s', v)
      ensures AnswerOk(s'.ledger, s'.workers, s'.workers[v])
    {
      if v != w { assert PreparedOk(s, v) && AnswerOk(s.ledger, s.workers, s.workers[v]); }
      if Answer(s'.workers[v].pc).Some? {
        NamesFrame(s.ledger, s.workers, s'.workers, s'.workers[v].req.key, Answer(s'.workers[v].pc).value);
      }
    }
  }

  // ----- The commit -----

  /** Same rows up to status. */
  predicate SameRows(a: seq<Payment>, b: seq<Payment>) {
    |a| <= |b| && forall k :: 0 <= k < |a| ==> b[k] == a[k].(status := b[k].status)
  }

  lemma {:induction false} NamesGrow(a: seq<Payment>, b: seq<Payment>, workers: seq<Worker>, key: Key, r: Response)
    requires SameRows(a, b) && Names(a, workers, key, r)
    ensures Names(b, workers, key, r)
  {
    var k :| 0 <= k < |a| && RowNamed(a[k], workers, key, r);
    assert RowNamed(b[k], workers, key, r);
  }

  /** A new id is not the target of a refund, and a request that has not committed has no row. */
  lemma {:induction false} IdIsNew(s: System, w: nat, id: Id)
    requires RowsOk(s) && w < |s.workers| && !HasCommitted(s.workers[w]) && !HasPayment(s.ledger, id)
    ensures !IsRefunded(s.ledger, s.workers, id)
    ensures forall k :: 0 <= k < |s.ledger| ==> s.ledger[k].worker != w
  {
    forall k | 0 <= k < |s.ledger| ensures s.ledger[k].worker != w {
      assert RowOk(s.ledger, s.workers, k);
    }
    forall j | 0 <= j < |s.ledger| && s.ledger[j].worker < |s.workers| && s.workers[s.ledger[j].worker].req.Refund?
      ensures s.workers[s.ledger[j].worker].req.paymentId != id
    {
      assert RowOk(s.ledger, s.workers, j);
    }
  }

  lemma {:induction false} RefundedGrows(s: System, ledger: seq<Payment>, w: nat, id: Id)
    requires w < |s.workers| && |ledger| == |s.ledger| + 1 && SameRows(s.ledger, ledger) && ledger[|s.ledger|].worker == w
    ensures IsRefunded(ledger, s.workers, id)
      <==> IsRefunded(s.ledger, s.workers, id) || (s.workers[w].req.Refund? && s.workers[w].req.paymentId == id)
  {
    if IsRefunded(s.ledger, s.workers, id) {
      var j :| 0 <= j < |s.ledger| && s.ledger[j].worker < |s.workers|
               && s.workers[s.ledger[j].worker].req.Refund? && s.workers[s.ledger[j].worker].req.paymentId == id;
      assert ledger[j].worker == s.ledger[j].worker;
    }
    if s.workers[w].req.Refund? && s.workers[w].req.paymentId == id { assert ledger[|s.ledger|].worker == w; }
  }

  lemma {:induction false} OriginalGrows(a: seq<Payment>, b: seq<Payment>, id: Id, amount: int)
    requires SameRows(a, b) && HasOriginal(a, id, amount)
    ensures HasOriginal(b, id, amount)
  {
    var k :| 0 <= k < |a| && a[k].paymentId == id && a[k].amount == amount;
    assert b[k].paymentId == id;
  }

  lemma {:induction false} CommitKeepsRow(s: System, w: nat, k: nat)
    requires Inv(s) && w < |s.workers| && s.workers[w].pc.Prepared? && !Refused(s.ledger, s.workers[w].pc.row)
    requires k <= |s.ledger|
    ensures RowOk(CommitAll(s, w).ledger, s.workers[w := CommitAll(s, w).workers[w]], k)
  {
    var wk := s.workers[w];
    var ledger', workers' := CommitAll(s, w).ledger, CommitAll(s, w).workers;
    assert PreparedOk(s, w);
    assert SameRows(s.ledger, ledger');
    IdIsNew(s, w, wk.pc.row.paymentId);
    var id := ledger'[k].paymentId;
    RefundedFrame(ledger', s.workers, workers', id);
    RefundedGrows(s, ledger', w, id);
    if k < |s.ledger| {
      assert RowOk(s.ledger, s.workers, k);
      var req := s.workers[s.ledger[k].worker].req;
      if req.Refund? { OriginalGrows(s.ledger, ledger', req.paymentId, -s.ledger[k].amount); }
    } else if wk.req.Refund? {
      assert s.ledger[wk.pc.flips.value].paymentId == wk.req.paymentId;
      OriginalGrows(s.ledger, ledger', wk.req.paymentId, -wk.pc.row.amount);
    }
  }

  lemma {:induction false} CommitKeepsRows(s: System, w: nat)
    requires Inv(s) && w < |s.workers| && s.workers[w].pc.Prepared? && !Refused(s.ledger, s.workers[w].pc.row)
    ensures RowsOk(CommitAll(s, w))
  {
    var s' := CommitAll(s, w);
    assert PreparedOk(s, w);
    IdIsNew(s, w, s.workers[w].pc.row.paymentId);
    assert SameRows(s.ledger, s'.ledger);
    forall k | 0 <= k < |s'.ledger| ensures RowOk(s'.ledger, s'.workers, k) {
      CommitKeepsRow(s, w, k);
    }
    forall v | 0 <= v < |s'.workers| && HasCommitted(s'.workers[v]) ensures OwnsRow(s'.ledger, v) {
      CommitKeepsOwners(s, w, v);
    }
  }

  lemma {:induction false} CommitKeepsOwners(s: System, w: nat, v: nat)
    requires Inv(s) && w < |s.workers| && s.workers[w].pc.Prepared? && !Refused(s.ledger, s.workers[w].pc.row)
    requires v < |s.workers| && (v == w || HasCommitted(s.workers[v]))
    ensures OwnsRow(CommitAll(s, w).ledger, v)
  {
    var ledger' := CommitAll(s, w).ledger;
    assert PreparedOk(s, w);
    assert SameRows(s.ledger, ledger');
    if v == w {
      assert ledger'[|s.ledger|].worker == w;
    } else {
      var k :| 0 <= k < |s.ledger| && s.ledger[k].worker == v;
      assert ledger'[k].worker == v;
    }
  }

  lemma {:induction false} CommitKeepsNames(s: System, w: nat)
    requires Inv(s) && w < |s.workers| && s.workers[w].pc.Prepared? && !Refused(s.ledger, s.workers[w].pc.row)
    ensures CacheOk(CommitAll(s, w)) && WorkersOk(CommitAll(s, w))
  {
    var s' := CommitAll(s, w);
    assert PreparedOk(s, w);
    assert SameRows(s.ledger, s'.ledger);
    forall key | key in s'.cache ensures Names(s'.ledger, s'.workers, key, s'.cache[key]) {
      NamesMove(s.ledger, s'.ledger, s.workers, s'.workers, key, s.cache[key]);
    }
    forall v | 0 <= v < |s'.workers| ensures PreparedOk(s', v) && AnswerOk(s'.ledger, s'.workers, s'.workers[v]) {
      if v != w {
        assert PreparedOk(s, v) && AnswerOk(s.ledger, s.workers, s.workers[v]);
        CommitLeavesOther(s, s', w, v);
      } else {
        assert RowNamed(s'.ledger[|s.ledger|], s'.workers, s.workers[w].req.key, s'.workers[w].pc.response);
      }
    }
  }

  lemma {:induction false} NamesMove(a: seq<Payment>, b: seq<Payment>, workers: seq<Worker>, workers': seq<Worker>, key: Key,
                                     r: Response)
    requires SameRows(a, b) && SameRequests(workers, workers') && Names(a, workers, key, r)
    ensures Names(b, workers', key, r)
  {
    NamesGrow(a, b, workers, key, r);
    NamesFrame(b, workers, workers', key, r);
  }

  lemma {:induction false} CommitLeavesOther(s: System, s': System, w: nat, v: nat)
    requires v < |s.workers| == |s'.workers| && s'.workers[v] == s.workers[v]
    requires SameRows(s.ledger, s'.ledger) && SameRequests(s.workers, s'.workers)
    requires PreparedOk(s, v) && AnswerOk(s.ledger, s.workers, s.workers[v])
    ensures PreparedOk(s', v) && AnswerOk(s'.ledger, s'.workers, s'.workers[v])
  {
    var wk := s.workers[v];
    if Answer(wk.pc).Some? {
      NamesMove(s.ledger, s'.ledger, s.workers, s'.workers, wk.req.key, Answer(wk.pc).value);
    }
  }

  // ----- All steps, all runs -----

  lemma {:induction false} RestartKeepsInv(s: System)
    requires Inv(s)
    ensures Inv(Next(s, Restart))
  {
    var s' := Next(s, Restart);
    RowsFrame(s, s'.workers);
    forall v | 0 <= v < |s'.workers| ensures PreparedOk(s', v) && AnswerOk(s'.ledger, s'.workers, s'.workers[v]) {
      assert AnswerOk(s.ledger, s.workers, s.workers[v]);
      if Answer(s'.workers[v].pc).Some? {
        NamesFrame(s.ledger, s.workers, s'.workers, s'.workers[v].req.key, Answer(s'.workers[v].pc).value);
      }
    }
  }

  lemma {:induction false} CheckKeepsInv(s: System, w: nat)
    requires Inv(s) && w < |s.workers| && s.workers[w].pc.Idle?
    ensures Inv(CheckCache(s, w))
  {
    var pc := CheckCache(s, w).workers[w].pc;
    QuietKeepsInv(s, w, pc, s.cache);
    assert CheckCache(s, w) == Update(s, w, pc).(cache := s.cache);
  }

  lemma {:induction false} PrepareKeepsInv(s: System, w: nat, draw: Id)
    requires Inv(s) && w < |s.workers| && s.workers[w].pc.Checked?
    ensures Inv(Prepare(s, w, draw))
  {
    var pc := Prepare(s, w, draw).workers[w].pc;
    QuietKeepsInv(s, w, pc, s.cache);
    assert Prepare(s, w, draw) == Update(s, w, pc).(cache := s.cache);
  }

  lemma {:induction false} StepKeepsInv(s: System, w: nat, draw: Id)
    requires Inv(s) && w < |s.workers|
    ensures Inv(StepWorker(s, w, draw))
  {
    var wk := s.workers[w];
    assert PreparedOk(s, w) && AnswerOk(s.ledger, s.workers, wk);
    match wk.pc
    case Idle => CheckKeepsInv(s, w);
    case Checked => PrepareKeepsInv(s, w, draw);
    case Prepared(_, _) =>
      if Refused(s.ledger, wk.pc.row) {
        QuietKeepsInv(s, w, Finished(Failed), s.cache);
      } else {
        CommitKeepsRows(s, w);
        CommitKeepsNames(s, w);
      }
    case Committed(r) => QuietKeepsInv(s, w, Finished(Done(r)), s.cache[wk.req.key := r]);
    case Finished(_) =>
  }

  lemma {:induction false} RunKeepsInv(workers: seq<Worker>, actions: seq<Action>)
    requires Fresh(workers)
    ensures Inv(Run(Initial(workers), actions))
  {
    if actions != [] {
      var before, a := actions[..|actions| - 1], actions[|actions| - 1];
      RunKeepsInv(workers, before);
      var s := Run(Initial(workers), before);
      match a
      case Step(w, draw) => if w < |s.workers| { StepKeepsInv(s, w, draw); }
      case Abort(w) =>
        if w < |s.workers| && (s.workers[w].pc.Checked? || s.workers[w].pc.Prepared?) {
          QuietKeepsInv(s, w, Finished(Failed), s.cache);
        }
      case Restart => RestartKeepsInv(s);
    }
  }

  /** For any interleaving of cache checks, transactions and cache fills, any drawn ids, any aborts and restarts: each key
      commits at most one row, every response and every cache entry names the committed row with its key, and a payment
      shows REFUNDED without having been inserted so only if a refund of it was committed, so that the status edit of a
      loser is undone. */
  lemma {:induction false} AtMostOnce(workers: seq<Worker>, actions: seq<Action>)
    requires Fresh(workers)
    ensures var s := Run(Initial(workers), actions);
      && (forall j, k :: 0 <= j < k < |s.ledger| ==>
            s.ledger[j].key != s.ledger[k].key && s.ledger[j].paymentId != s.ledger[k].paymentId)
      && (forall key :: key in s.cache ==> Names(s.ledger, s.workers, key, s.cache[key]))
      && (forall w :: 0 <= w < |s.workers| ==> AnswerOk(s.ledger, s.workers, s.workers[w]))
      && (forall k :: 0 <= k < |s.ledger| ==> RowOk(s.ledger, s.workers, k))
  {
    RunKeepsInv(workers, actions);
    var s := Run(Initial(workers), actions);
    assert forall w :: 0 <= w < |s.workers| ==> PreparedOk(s, w) && AnswerOk(s.ledger, s.workers, s.workers[w]);
  }

  /** In every run, the reply of an authorization that was carried out is its own request with the status the decline
      flag calls for, and the reply of a refund has the positive amount of the payment it names; either is backed by a row
      that this very request inserted. */
  lemma {:induction false} DoneReplies(workers: seq<Worker>, actions: seq<Action>, w: nat)
    requires Fresh(workers)
    requires var s := Run(Initial(workers), actions);
      w < |s.workers| && s.workers[w].pc.Finished? && s.workers[w].pc.reply.Done?
    ensures var s := Run(Initial(workers), actions); var r := s.workers[w].pc.reply.response;
      && OwnsRow(s.ledger, w)
      && match s.workers[w].req {
           case Authorize(key, orderId, amount, declined) =>
             && (declined ==> r == Response(r.paymentId, orderId, amount, Declined, key))
             && (!declined ==> r == Response(r.paymentId, orderId, amount, Authorized, key))
             && HasOriginal(s.ledger, r.paymentId, amount)
           case Refund(key, orderId, id) =>
             && r == Response(r.paymentId, orderId, r.amount, Refunded, key)
             && HasOriginal(s.ledger, id, r.amount) && HasOriginal(s.ledger, r.paymentId, -r.amount)
         }
  {
    RunKeepsInv(workers, actions);
    var s := Run(Initial(workers), actions);
    var r := s.workers[w].pc.reply.response;
    assert PreparedOk(s, w) && AnswerOk(s.ledger, s.workers, s.workers[w]);
    var k :| 0 <= k < |s.ledger| && RowNamed(s.ledger[k], s.workers, s.workers[w].req.key, r);
    var j :| 0 <= j < |s.ledger| && s.ledger[j].worker == w;
    assert RowOk(s.ledger, s.workers, j);
    assert j == k;
  }
}
