/** The payment endpoints as code that updates the ledger and the cache in place. */
module PaymentService {
  import opened Common
  import opened PaymentRace

  /** A request that arrives at `s`, draws `id` and is served without interruption: its four steps in a row. */
  function Alone(s: System, req: Request, id: Id): System {
    var w := |s.workers|;
    var s1 := StepWorker(s.(workers := s.workers + [Worker(req, Idle)]), w, id);
    var s2 := if w < |s1.workers| then StepWorker(s1, w, id) else s1;
    var s3 := if w < |s2.workers| then StepWorker(s2, w, id) else s2;
    if w < |s3.workers| then StepWorker(s3, w, id) else s3
  }

  /** `s` after the arrival of a request that has got as far as `pc`. */
  function At(s: System, req: Request, pc: Pc): System {
    s.(workers := s.workers + [Worker(req, pc)])
  }

  lemma {:induction false} FinishedStays(s: System, req: Request, reply: Reply, id: Id)
    ensures StepWorker(At(s, req, Finished(reply)), |s.workers|, id) == At(s, req, Finished(reply))
  {
  }

  lemma {:induction false} UpdateAt(s: System, req: Request, pc: Pc, pc': Pc)
    ensures Update(At(s, req, pc), |s.workers|, pc') == At(s, req, pc')
  {
  }

  /** A request that is over after its first step. */
  lemma {:induction false} OverAtOnce(s: System, req: Request, reply: Reply, id: Id)
    requires CheckCache(At(s, req, Idle), |s.workers|) == At(s, req, Finished(reply))
    ensures Alone(s, req, id) == At(s, req, Finished(reply))
  {
    FinishedStays(s, req, reply, id);
  }

  /** The transaction of a request that passed the cache check. */
  lemma {:induction false} Passes(s: System, req: Request)
    requires !(req.Authorize? && req.amount <= 0) && req.key !in s.cache
    ensures CheckCache(At(s, req, Idle), |s.workers|) == At(s, req, Checked)
  {
    UpdateAt(s, req, Idle, Checked);
  }

  lemma {:induction false} Misses(s: System, req: Request, id: Id)
    requires req.Refund? && req.key !in s.cache && Find(s.ledger, req.paymentId, 0).None?
    ensures Alone(s, req, id) == At(s, req, Finished(NotFound))
  {
    Passes(s, req);
    UpdateAt(s, req, Checked, Finished(NotFound));
    FinishedStays(s, req, NotFound, id);
  }

  /** The row that a request would insert, and the row whose status it would edit. */
  lemma {:induction false} Prepares(s: System, req: Request, row: Payment, flips: Option<nat>, id: Id)
    requires !(req.Authorize? && req.amount <= 0) && req.key !in s.cache
    requires Prepare(At(s, req, Checked), |s.workers|, id) == At(s, req, Prepared(row, flips))
    ensures Alone(s, req, id) ==
      if Refused(s.ledger, row) then At(s, req, Finished(Failed))
      else At(s, req, Finished(Done(ResponseFor(row, req))))
             .(ledger := Flip(s.ledger, flips) + [row], cache := s.cache[req.key := ResponseFor(row, req)])
  {
    Passes(s, req);
    var s2 := At(s, req, Prepared(row, flips));
    if Refused(s.ledger, row) {
      UpdateAt(s, req, Prepared(row, flips), Finished(Failed));
      FinishedStays(s, req, Failed, id);
    } else {
      var response := ResponseFor(row, req);
      UpdateAt(s, req, Prepared(row, flips), Committed(response));
      UpdateAt(s, req, Committed(response), Finished(Done(response)));
    }
  }

  /** The whole of an uninterrupted request. */
  lemma {:induction false} AloneFinishes(s: System, req: Request, id: Id) returns (reply: Reply)
    ensures var s' := Alone(s, req, id);
      && s'.workers == s.workers + [Worker(req, Finished(reply))]
      && (reply.Done? ==> s'.cache == s.cache[req.key := reply.response])
      && (!reply.Done? ==> s'.cache == s.cache && s'.ledger == s.ledger)
      && (reply.Replayed? ==> req.key in s.cache && s.cache[req.key] == reply.response)
  {
    if req.Authorize? && req.amount <= 0 {
      UpdateAt(s, req, Idle, Finished(Invalid));
      OverAtOnce(s, req, Invalid, id);
      reply := Invalid;
    } else if req.key in s.cache {
      reply := Replayed(s.cache[req.key]);
      UpdateAt(s, req, Idle, Finished(reply));
      OverAtOnce(s, req, reply, id);
    } else if req.Refund? && Find(s.ledger, req.paymentId, 0).None? {
      Misses(s, req, id);
      reply := NotFound;
    } else {
      var flips := if req.Refund? then Find(s.ledger, req.paymentId, 0) else None;
      var amount := if req.Refund? then -s.ledger[flips.value].amount else req.amount;
      var row := Payment(id, req.orderId, amount, FirstStatus(req), req.key, |s.workers|);
      UpdateAt(s, req, Checked, Prepared(row, flips));
      Prepares(s, req, row, flips, id);
      reply := if Refused(s.ledger, row) then Failed else Done(ResponseFor(row, req));
    }
  }

  /** A row stands in the way of a new one. */
  predicate InTheWay(ledger: seq<Payment>, key: Key, id: Id) {
    exists k :: 0 <= k < |ledger| && (ledger[k].key == key || ledger[k].paymentId == id)
  }

  lemma {:induction false} RefusedIff(ledger: seq<Payment>, row: Payment)
    ensures Refused(ledger, row) <==> InTheWay(ledger, row.key, row.paymentId)
  {
  }

  /** `s'` is `s` after a request that got `reply` and left this ledger and this cache. */
  predicate Answers(s: System, s': System, req: Request, reply: Reply, ledger: seq<Payment>, cache: map<Key, Response>) {
    s' == System(ledger, cache, s.workers + [Worker(req, Finished(reply))])
  }

  /** Which reply an authorization gets, and what it leaves behind, from the request, the old ledger and the old cache. */
  lemma {:induction false} AuthorizeAnswer(s: System, key: Key, orderId: Id, amount: int, declined: bool, id: Id)
    ensures var req := Authorize(key, orderId, amount, declined); var s' := Alone(s, req, id);
      if amount <= 0 then Answers(s, s', req, Invalid, s.ledger, s.cache)
      else if key in s.cache then Answers(s, s', req, Replayed(s.cache[key]), s.ledger, s.cache)
      else if InTheWay(s.ledger, key, id) then Answers(s, s', req, Failed, s.ledger, s.cache)
      else if declined then
        var r := Response(id, orderId, amount, Declined, key);
        Answers(s, s', req, Done(r), s.ledger + [Payment(id, orderId, amount, Declined, key, |s.workers|)], s.cache[key := r])
      else
        var r := Response(id, orderId, amount, Authorized, key);
        Answers(s, s', req, Done(r), s.ledger + [Payment(id, orderId, amount, Authorized, key, |s.workers|)], s.cache[key := r])
  {
    var req := Authorize(key, orderId, amount, declined);
    if amount <= 0 {
      UpdateAt(s, req, Idle, Finished(Invalid));
      OverAtOnce(s, req, Invalid, id);
    } else if key in s.cache {
      UpdateAt(s, req, Idle, Finished(Replayed(s.cache[key])));
      OverAtOnce(s, req, Replayed(s.cache[key]), id);
    } else {
      var row := Payment(id, orderId, amount, if declined then Declined else Authorized, key, |s.workers|);
      RefusedIff(s.ledger, row);
      UpdateAt(s, req, Checked, Prepared(row, None));
      Prepares(s, req, row, None, id);
    }
  }

  /** Which reply a refund gets: NotFound if no row has the payment id; otherwise the row named is marked REFUNDED and a
      row with the negated amount is added, and the response reports the positive one. */
  lemma {:induction false} RefundAnswer(s: System, key: Key, orderId: Id, paymentId: Id, id: Id)
    ensures var req := Refund(key, orderId, paymentId); var s' := Alone(s, req, id);
      if key in s.cache then Answers(s, s', req, Replayed(s.cache[key]), s.ledger, s.cache)
      else if Unknown(s.ledger, paymentId) then
        Answers(s, s', req, NotFound, s.ledger, s.cache)
      else if InTheWay(s.ledger, key, id) then Answers(s, s', req, Failed, s.ledger, s.cache)
      else Refunds(s, s', req, id)
  {
    var req := Refund(key, orderId, paymentId);
    var at := Find(s.ledger, paymentId, 0);
    if key in s.cache {
      UpdateAt(s, req, Idle, Finished(Replayed(s.cache[key])));
      OverAtOnce(s, req, Replayed(s.cache[key]), id);
    } else if at.None? {
      Misses(s, req, id);
    } else {
      var row := Payment(id, orderId, -s.ledger[at.value].amount, Refunded, key, |s.workers|);
      RefusedIff(s.ledger, row);
      UpdateAt(s, req, Checked, Prepared(row, at));
      Prepares(s, req, row, at, id);
      if !InTheWay(s.ledger, key, id) {
        RefundedRow(s, req, at.value, id);
        assert s.ledger[at.value].paymentId == paymentId && RefundDone(s, Alone(s, req, id), req, at.value, id);
      }
    }
  }

  predicate Unknown(ledger: seq<Payment>, id: Id) {
    forall k :: 0 <= k < |ledger| ==> ledger[k].paymentId != id
  }

  /** The same, from the reply. */
  lemma {:induction false} RefundSays(s: System, s': System, req: Request, id: Id, reply: Reply)
    requires req.Refund? && s' == Alone(s, req, id) && s'.workers == s.workers + [Worker(req, Finished(reply))]
    ensures req.key in s.cache ==> reply == Replayed(s.cache[req.key])
    ensures reply.NotFound? <==> req.key !in s.cache && Unknown(s.ledger, req.paymentId)
    ensures reply.Done? ==> Refunds(s, s', req, id)
  {
    RefundAnswer(s, req.key, req.orderId, req.paymentId, id);
    assert s'.workers[|s.workers|] == Worker(req, Finished(reply));
  }

  /** Some row with the payment id of the request has been refunded. */
  predicate Refunds(s: System, s': System, req: Request, id: Id)
    requires req.Refund?
  {
    exists k :: 0 <= k < |s.ledger| && s.ledger[k].paymentId == req.paymentId && RefundDone(s, s', req, k, id)
  }

  predicate RefundDone(s: System, s': System, req: Request, k: nat, id: Id)
    requires req.Refund? && k < |s.ledger|
  {
    var amount := s.ledger[k].amount;
    var r := Response(id, req.orderId, amount, Refunded, req.key);
    && s'.workers == s.workers + [Worker(req, Finished(Done(r)))] && s'.cache == s.cache[req.key := r]
    && |s'.ledger| == |s.ledger| + 1
    && s'.ledger[|s.ledger|] == Payment(id, req.orderId, -amount, Refunded, req.key, |s.workers|)
    && s'.ledger[k] == s.ledger[k].(status := Refunded)
    && (forall j :: 0 <= j < |s.ledger| && j != k ==> s'.ledger[j] == s.ledger[j])
  }

  lemma {:induction false} RefundedRow(s: System, req: Request, k: nat, id: Id)
    requires req.Refund? && k < |s.ledger|
    requires var row := Payment(id, req.orderId, -s.ledger[k].amount, Refunded, req.key, |s.workers|);
      Alone(s, req, id) == At(s, req, Finished(Done(ResponseFor(row, req))))
        .(ledger := Flip(s.ledger, Some(k)) + [row], cache := s.cache[req.key := ResponseFor(row, req)])
    ensures RefundDone(s, Alone(s, req, id), req, k, id)
  {
  }

  /** A repeat under the same key of a request that was answered gets the first response again and changes nothing,
      whatever else it asks for. */
  lemma {:induction false} RepeatIsReplayed(s: System, req: Request, again: Request, id: Id, id': Id)
    requires again.key == req.key && !(again.Authorize? && again.amount <= 0)
    requires var s' := Alone(s, req, id); |s'.workers| > |s.workers| && Answer(s'.workers[|s.workers|].pc).Some?
    ensures var s' := Alone(s, req, id); var s'' := Alone(s', again, id');
      && |s'.workers| == |s.workers| + 1 && |s''.workers| == |s.workers| + 2
      && s''.ledger == s'.ledger && s''.cache == s'.cache
      && s''.workers[|s.workers| + 1].pc == Finished(Replayed(Answer(s'.workers[|s.workers|].pc).value))
  {
    var reply := AloneFinishes(s, req, id);
    var s' := Alone(s, req, id);
    assert again.key in s'.cache && s'.cache[again.key] == reply.response;
    UpdateAt(s', again, Idle, Finished(Replayed(reply.response)));
    OverAtOnce(s', again, Replayed(reply.response), id');
  }

  class PaymentLedger {
    var ledger: seq<Payment>
    var cache: map<Key, Response>
    /** The number of requests so far; a row remembers which of them inserted it. */
    var requests: nat
    ghost var workers: seq<Worker>

    constructor ()
      ensures Valid() && View() == Initial([])
    {
      ledger, cache, requests, workers := [], map[], 0, [];
    }

    ghost predicate Valid()
      reads this
    {
      requests == |workers|
    }

    ghost function View(): System
      reads this
    {
      System(ledger, cache, workers)
    }

    /** `authorize_payment`; `id` is the payment id drawn for this call. */
    method AuthorizePayment(key: Key, orderId: Id, amount: int, declined: bool, id: Id) returns (reply: Reply)
      requires Valid()
      modifies this
      ensures Valid() && View() == Alone(old(View()), Authorize(key, orderId, amount, declined), id)
      ensures workers == old(workers) + [Worker(Authorize(key, orderId, amount, declined), Finished(reply))]
      ensures amount > 0 && key !in old(cache) && !InTheWay(old(ledger), key, id) ==>
        var status := if declined then Declined else Authorized;
        && reply == Done(Response(id, orderId, amount, status, key))
        && ledger == old(ledger) + [Payment(id, orderId, amount, status, key, |old(workers)|)]
      ensures amount > 0 && key in old(cache) ==> reply == Replayed(old(cache)[key])
      ensures reply.Invalid? <==> amount <= 0
    {
      AuthorizeAnswer(View(), key, orderId, amount, declined, id);
      ghost var s, req := View(), Authorize(key, orderId, amount, declined);
      if amount <= 0 {
        UpdateAt(s, req, Idle, Finished(Invalid));
        OverAtOnce(s, req, Invalid, id);
        reply := Invalid;
      } else if key in cache {
        UpdateAt(s, req, Idle, Finished(Replayed(cache[key])));
        OverAtOnce(s, req, Replayed(cache[key]), id);
        reply := Replayed(cache[key]);
      } else {
        var row := Payment(id, orderId, amount, if declined then Declined else Authorized, key, requests);
        UpdateAt(s, req, Checked, Prepared(row, None));
        Prepares(s, req, row, None, id);
        reply := Flush(None, row, Response(id, orderId, amount, row.status, key));
      }
      requests := requests + 1;
      workers := workers + [Worker(req, Finished(reply))];
    }

    /** `refund_payment`: the refund row carries the negated amount, its response the positive one. */
    method RefundPayment(key: Key, orderId: Id, paymentId: Id, id: Id) returns (reply: Reply)
      requires Valid()
      modifies this
      ensures Valid() && View() == Alone(old(View()), Refund(key, orderId, paymentId), id)
      ensures workers == old(workers) + [Worker(Refund(key, orderId, paymentId), Finished(reply))]
      ensures key in old(cache) ==> reply == Replayed(old(cache)[key])
      ensures reply.NotFound? <==> key !in old(cache) && Unknown(old(ledger), paymentId)
      ensures reply.Done? ==> Refunds(old(View()), View(), Refund(key, orderId, paymentId), id)
    {
      ghost var s, req := View(), Refund(key, orderId, paymentId);
      if key in cache {
        UpdateAt(s, req, Idle, Finished(Replayed(cache[key])));
        OverAtOnce(s, req, Replayed(cache[key]), id);
        reply := Replayed(cache[key]);
      } else {
        var original := Find(ledger, paymentId, 0);
        if original.None? {
          Misses(s, req, id);
          reply := NotFound;
        } else {
          var amount := ledger[original.value].amount;
          var row := Payment(id, orderId, -amount, Refunded, key, requests);
          UpdateAt(s, req, Checked, Prepared(row, original));
          Prepares(s, req, row, original, id);
          reply := Flush(original, row, Response(id, orderId, amount, Refunded, key));
        }
      }
      requests := requests + 1;
      workers := workers + [Worker(req, Finished(reply))];
      RefundSays(s, View(), req, id, reply);
    }

    /** The end of the transaction and the cache write: a taken key or id rolls everything back. */
    method Flush(edits: Option<nat>, row: Payment, response: Response) returns (reply: Reply)
      modifies this`ledger, this`cache
      ensures Refused(old(ledger), row) ==> reply == Failed && ledger == old(ledger) && cache == old(cache)
      ensures !Refused(old(ledger), row) ==>
        && reply == Done(response) && ledger == Flip(old(ledger), edits) + [row]
        && cache == old(cache)[row.key := response]
    {
      if Refused(ledger, row) {
        return Failed;
      }
      if edits.Some? && edits.value < |ledger| {
        ledger := ledger[edits.value := ledger[edits.value].(status := Refunded)];
      }
      ledger := ledger + [row];
      cache := cache[row.key := response];
      reply := Done(response);
    }
  }
}
