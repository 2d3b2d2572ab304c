/** The order routes as code that updates the tables and the shared cache in place. */
module OrderService {
  import opened Common
  import Relay
  import opened OrderRace

  /** `s` after the arrival of a request that has got as far as `pc`. */
  function At(s: System, req: Request, pc: Pc): System {
    s.(workers := s.workers + [Worker(req, pc)])
  }

  /** The next step of the request that arrived last. */
  function Go(s: System, w: nat, draw: Id, batch: nat): System {
    if w < |s.workers| then StepWorker(s, w, draw, batch) else s
  }

  /** A request that arrives at `s` and is served without interruption: its five steps in a row. */
  function Alone(s: System, req: Request, orderId: Id, eventId: Id, batch: nat): System {
    var w := |s.workers|;
    var draws := if req.route.Legacy? then (orderId, "") else ("", orderId);
    var s2 := Go(Go(At(s, req, Idle), w, draws.0, batch), w, draws.1, batch);
    Go(Go(Go(s2, w, eventId, batch), w, "", batch), w, "", batch)
  }

  lemma {:induction false} UpdateAt(s: System, req: Request, pc: Pc, pc': Pc)
    ensures Update(At(s, req, pc), |s.workers|, pc') == At(s, req, pc')
  {
  }

  lemma {:induction false} FinishedStays(s: System, req: Request, reply: Reply, draw: Id, batch: nat)
    ensures Go(At(s, req, Finished(reply)), |s.workers|, draw, batch) == At(s, req, Finished(reply))
  {
  }

  /** The first two steps: authentication, cache check and order id, in the order of the route. */
  lemma {:induction false} Opens(s: System, req: Request, orderId: Id, batch: nat)
    ensures var w := |s.workers|;
      var draws := if req.route.Legacy? then (orderId, "") else ("", orderId);
      Go(Go(At(s, req, Idle), w, draws.0, batch), w, draws.1, batch) == At(s, req, Opened(s, req, orderId))
  {
    if req.route.Legacy? {
      UpdateAt(s, req, Idle, Drawn(orderId));
      UpdateAt(s, req, Drawn(orderId), Opened(s, req, orderId));
    } else {
      UpdateAt(s, req, Idle, Checked);
      UpdateAt(s, req, Idle, Opened(s, req, orderId));
      UpdateAt(s, req, Checked, Ready(orderId));
    }
  }

  function Opened(s: System, req: Request, orderId: Id): Pc {
    if req.route.Versioned? && req.user.None? then Finished(Unauthorized)
    else if req.key in s.cache then Finished(Replayed(s.cache[req.key]))
    else Ready(orderId)
  }

  lemma {:induction false} OverAtOnce(s: System, req: Request, orderId: Id, eventId: Id, batch: nat)
    requires Opened(s, req, orderId).Finished?
    ensures Alone(s, req, orderId, eventId, batch) == At(s, req, Opened(s, req, orderId))
  {
    Opens(s, req, orderId, batch);
    FinishedStays(s, req, Opened(s, req, orderId).reply, eventId, batch);
    FinishedStays(s, req, Opened(s, req, orderId).reply, "", batch);
  }

  predicate Refused(s: System, order: Order, event: Relay.Event) {
    KeyTaken(s.orders, order.key) || OrderIdTaken(s.orders, order.orderId) || Relay.IdTaken(s.outbox.rows, event.id)
  }

  /** The last three steps: both rows or none, then the cache. */
  lemma {:induction false} Closes(s: System, req: Request, orderId: Id, eventId: Id, batch: nat)
    requires Opened(s, req, orderId).Ready?
    ensures var order, event := OrderFor(req, orderId), Relay.Event(eventId, Relay.OrderCreated, orderId);
      var response := Response(orderId, req.total);
      Alone(s, req, orderId, eventId, batch) ==
      if Refused(s, order, event) then At(s, req, Finished(Failed))
      else At(s, req, Finished(Done(response)))
             .(orders := s.orders + [order], outbox := Relay.Next(s.outbox, Relay.Write(event), batch),
               cache := s.cache[req.key := response])
  {
    var order, event := OrderFor(req, orderId), Relay.Event(eventId, Relay.OrderCreated, orderId);
    var response := Response(orderId, req.total);
    Opens(s, req, orderId, batch);
    UpdateAt(s, req, Ready(orderId), Prepared(order, event));
    UpdateAt(s, req, Prepared(order, event), Finished(Failed));
    UpdateAt(s, req, Prepared(order, event), Committed(response));
    UpdateAt(s, req, Committed(response), Finished(Done(response)));
    FinishedStays(s, req, Failed, "", batch);
  }

  // ----- What a call is answered -----

  /** An order with the key or the order id, or an event with the event id, is already there. */
  predicate InTheWay(s: System, key: Key, orderId: Id, eventId: Id) {
    || (exists k :: 0 <= k < |s.orders| && (s.orders[k].key == key || s.orders[k].orderId == orderId))
    || (exists k :: 0 <= k < |s.outbox.rows| && s.outbox.rows[k].event.id == eventId)
  }

  /** One order and one PENDING event more, under the user's id if there is a user, and the response cached. */
  predicate Creates(s: System, s': System, req: Request, orderId: Id, eventId: Id) {
    var Request(_, key, user, bodyCustomer, restaurantId, items, total) := req;
    var customer := match user case Some(id) => id case None => bodyCustomer;
    && s'.orders == s.orders + [Order(orderId, customer, restaurantId, items, total, key)]
    && s'.outbox.rows == s.outbox.rows + [Relay.Row(Relay.Event(eventId, Relay.OrderCreated, orderId), Relay.Pending, 0)]
    && s'.outbox.stream == s.outbox.stream
    && s'.cache == s.cache[key := Response(orderId, total)]
    && s'.workers == s.workers + [Worker(req, Finished(Done(Response(orderId, total))))]
  }

  /** Which reply a call on either route gets, and what it leaves behind, from the request and the old state. */
  lemma {:induction false} OrderAnswer(s: System, req: Request, orderId: Id, eventId: Id, batch: nat)
    ensures var s' := Alone(s, req, orderId, eventId, batch);
      if req.route.Versioned? && req.user.None? then s' == At(s, req, Finished(Unauthorized))
      else if req.key in s.cache then s' == At(s, req, Finished(Replayed(s.cache[req.key])))
      else if InTheWay(s, req.key, orderId, eventId) then s' == At(s, req, Finished(Failed))
      else Creates(s, s', req, orderId, eventId)
  {
    if Opened(s, req, orderId).Finished? {
      OverAtOnce(s, req, orderId, eventId, batch);
    } else {
      RefusedIff(s, req, orderId, eventId);
      Closes(s, req, orderId, eventId, batch);
    }
  }

  lemma {:induction false} RefusedIff(s: System, req: Request, orderId: Id, eventId: Id)
    ensures Refused(s, OrderFor(req, orderId), Relay.Event(eventId, Relay.OrderCreated, orderId))
      <==> InTheWay(s, req.key, orderId, eventId)
  {
  }

  class OrderEndpoints {
    var orders: seq<Order>
    var outbox: Relay.System
    var cache: map<Key, Response>
    ghost var workers: seq<Worker>

    constructor ()
      ensures View() == Initial([])
    {
      orders, outbox, cache, workers := [], Relay.Initial(), map[], [];
    }

    ghost function View(): System
      reads this
    {
      System(orders, outbox, cache, workers)
    }

    /** `create_order`; the two ids are the ones drawn for this call. */
    method CreateOrder(req: Request, orderId: Id, eventId: Id, ghost batch: nat) returns (reply: Reply)
      requires req.route.Versioned?
      modifies this
      ensures View() == Alone(old(View()), req, orderId, eventId, batch)
      ensures workers == old(workers) + [Worker(req, Finished(reply))]
      ensures reply.Unauthorized? <==> req.user.None?
      ensures req.user.Some? && req.key in old(cache) ==> reply == Replayed(old(cache)[req.key])
      ensures req.user.Some? && req.key !in old(cache) && !InTheWay(old(View()), req.key, orderId, eventId) ==>
        Creates(old(View()), View(), req, orderId, eventId)
    {
      OrderAnswer(View(), req, orderId, eventId, batch);
      ghost var s := View();
      if req.user.None? {
        reply := Unauthorized;
        OverAtOnce(s, req, orderId, eventId, batch);
      } else if req.key in cache {
        reply := Replayed(cache[req.key]);
        OverAtOnce(s, req, orderId, eventId, batch);
      } else {
        Closes(s, req, orderId, eventId, batch);
        reply := Store(req, req.user.value, orderId, eventId, batch);
      }
      workers := workers + [Worker(req, Finished(reply))];
    }

    /** `create_order_legacy`: works without a user, and then believes the body. */
    method CreateOrderLegacy(req: Request, orderId: Id, eventId: Id, ghost batch: nat) returns (reply: Reply)
      requires req.route.Legacy?
      modifies this
      ensures View() == Alone(old(View()), req, orderId, eventId, batch)
      ensures workers == old(workers) + [Worker(req, Finished(reply))]
      ensures req.key in old(cache) ==> reply == Replayed(old(cache)[req.key])
      ensures req.key !in old(cache) && !InTheWay(old(View()), req.key, orderId, eventId) ==>
        Creates(old(View()), View(), req, orderId, eventId)
    {
      OrderAnswer(View(), req, orderId, eventId, batch);
      ghost var s := View();
      var customerId := if req.user.Some? then req.user.value else req.customerId;
      if req.key in cache {
        reply := Replayed(cache[req.key]);
        OverAtOnce(s, req, orderId, eventId, batch);
      } else {
        Closes(s, req, orderId, eventId, batch);
        reply := Store(req, customerId, orderId, eventId, batch);
      }
      workers := workers + [Worker(req, Finished(reply))];
    }

    /** The transaction with its two inserts, and the cache write after it. */
    method Store(req: Request, customerId: Id, orderId: Id, eventId: Id, ghost batch: nat) returns (reply: Reply)
      requires customerId == Customer(req)
      modifies this`orders, this`outbox, this`cache
      ensures var order, event := OrderFor(req, orderId), Relay.Event(eventId, Relay.OrderCreated, orderId);
        var response := Response(orderId, req.total);
        if Refused(old(View()), order, event) then
          reply == Failed && orders == old(orders) && outbox == old(outbox) && cache == old(cache)
        else
          && reply == Done(response) && orders == old(orders) + [order]
          && outbox == Relay.Next(old(outbox), Relay.Write(event), batch)
          && cache == old(cache)[req.key := response]
    {
      var order := Order(orderId, customerId, req.restaurantId, req.items, req.total, req.key);
      var event := Relay.Event(eventId, Relay.OrderCreated, orderId);
      if KeyTaken(orders, order.key) || OrderIdTaken(orders, orderId) || Relay.IdTaken(outbox.rows, eventId) {
        return Failed;
      }
      orders := orders + [order];
      outbox := outbox.(rows := outbox.rows + [Relay.Row(event, Relay.Pending, 0)], picks := outbox.picks + [0]);
      var response := Response(orderId, req.total);
      cache := cache[req.key := response];
      reply := Done(response);
    }
  }
}
