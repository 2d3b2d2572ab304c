/** Concurrent order creation over both routes, with the relay at work on the outbox: cache check, transaction and cache
    fill are separate steps, and restarts lose the cache. */
module OrderRace {
  import opened Common
  import Relay
  import RelayGuarantees

  type Id = string
  type Key = string

  datatype Route = Versioned | Legacy

  /** `user` is the authenticated user, if any; `customerId` is the customer named in the body. */
  datatype Request = Request(route: Route, key: Key, user: Option<Id>, customerId: Id, restaurantId: Id,
                             items: seq<string>, total: real)

  datatype Order = Order(orderId: Id, customerId: Id, restaurantId: Id, items: seq<string>, total: real, key: Key)

  datatype Response = Response(orderId: Id, total: real)

  datatype Reply = Done(response: Response) | Replayed(response: Response) | Unauthorized | Failed | Killed(committed: bool)

  /** The versioned route checks the cache and then draws an order id, the legacy route the other way round. `Prepared`
      holds the two rows that the session will flush. */
  datatype Pc =
    | Idle
    | Checked
    | Drawn(orderId: Id)
    | Ready(orderId: Id)
    | Prepared(order: Order, event: Relay.Event)
    | Committed(response: Response)
    | Finished(reply: Reply)

  datatype Worker = Worker(req: Request, pc: Pc)

  datatype System = System(orders: seq<Order>, outbox: Relay.System, cache: map<Key, Response>, workers: seq<Worker>)

  /** `draw` is the random value a step may use: nothing is assumed of it. `Abort` is a transaction that fails for any
      other reason; `Background` is a step of the relay, which never writes an event of its own. */
  datatype Action = Step(worker: nat, draw: Id) | Abort(worker: nat) | Restart | Background(action: Relay.Action)

  // ----- Steps -----

  predicate KeyTaken(orders: seq<Order>, key: Key) {
    exists k :: 0 <= k < |orders| && orders[k].key == key
  }

  predicate OrderIdTaken(orders: seq<Order>, id: Id) {
    exists k :: 0 <= k < |orders| && orders[k].orderId == id
  }

  function Customer(req: Request): Id {
    if req.user.Some? then req.user.value else req.customerId
  }

  function Update(s: System, w: nat, pc: Pc): System
    requires w < |s.workers|
  {
    s.(workers := s.workers[w := s.workers[w].(pc := pc)])
  }

  function CheckCache(s: System, w: nat, miss: Pc): System
    requires w < |s.workers|
  {
    var key := s.workers[w].req.key;
    if key in s.cache then Update(s, w, Finished(Replayed(s.cache[key]))) else Update(s, w, miss)
  }

  function OrderFor(req: Request, id: Id): Order {
    Order(id, Customer(req), req.restaurantId, req.items, req.total, req.key)
  }

  /** A taken key, order id or event id makes the flush fail, and then neither row reaches its table. */
  function CommitBoth(s: System, w: nat, batch: nat): System
    requires w < |s.workers| && s.workers[w].pc.Prepared?
  {
    var Prepared(order, event) := s.workers[w].pc;
    if KeyTaken(s.orders, order.key) || OrderIdTaken(s.orders, order.orderId) || Relay.IdTaken(s.outbox.rows, event.id)
    then Update(s, w, Finished(Failed))
    else
      Update(s, w, Committed(Response(order.orderId, order.total)))
        .(orders := s.orders + [order], outbox := Relay.Next(s.outbox, Relay.Write(event), batch))
  }

  function StepWorker(s: System, w: nat, draw: Id, batch: nat): System
    requires w < |s.workers|
  {
    var wk := s.workers[w];
    match wk.pc
    case Idle =>
      if wk.req.route.Legacy? then Update(s, w, Drawn(draw))
      else if wk.req.user.None? then Update(s, w, Finished(Unauthorized))
      else CheckCache(s, w, Checked)
    case Checked => Update(s, w, Ready(draw))
    case Drawn(id) => CheckCache(s, w, Ready(id))
    case Ready(id) => Update(s, w, Prepared(OrderFor(wk.req, id), Relay.Event(draw, Relay.OrderCreated, id)))
    case Prepared(_, _) => CommitBoth(s, w, batch)
    case Committed(response) => Update(s, w, Finished(Done(response))).(cache := s.cache[wk.req.key := response])
    case Finished(_) => s
  }

  function Kill(wk: Worker): Worker {
    if wk.pc.Finished? then wk else wk.(pc := Finished(Killed(wk.pc.Committed?)))
  }

  predicate InTransaction(pc: Pc) {
    pc.Ready? || pc.Prepared?
  }

  function Next(s: System, a: Action, batch: nat): System {
    match a
    case Step(w, draw) => if w < |s.workers| then StepWorker(s, w, draw, batch) else s
    case Abort(w) =>
      if w < |s.workers| && InTransaction(s.workers[w].pc) then Update(s, w, Finished(Failed)) else s
    case Restart => s.(cache := map[], workers := Map(Kill, s.workers))
    case Background(r) => if r.Write? then s else s.(outbox := Relay.Next(s.outbox, r, batch))
  }

  /** A restart forgets the cache and every request under way; an abort forgets one; orders and outbox stay. */
  lemma {:induction false} WhatIsForgotten(s: System, w: nat, batch: nat)
    ensures var s' := Next(s, Restart, batch);
      && s'.cache == map[] && s'.orders == s.orders && s'.outbox == s.outbox
      && forall v :: 0 <= v < |s'.workers| ==> s'.workers[v].pc.Finished?
    ensures var s' := Next(s, Abort(w), batch); s'.cache == s.cache && s'.orders == s.orders && s'.outbox == s.outbox
    ensures w < |s.workers| && InTransaction(s.workers[w].pc) ==>
      Next(s, Abort(w), batch).workers == s.workers[w := s.workers[w].(pc := Finished(Failed))]
  {
  }

  function Run(s: System, actions: seq<Action>, batch: nat): System {
    if actions == [] then s else Next(Run(s, actions[..|actions| - 1], batch), actions[|actions| - 1], batch)
  }

  function Initial(workers: seq<Worker>): System {
    System([], Relay.Initial(), map[], workers)
  }

  predicate Fresh(workers: seq<Worker>) {
    forall w :: 0 <= w < |workers| ==> workers[w].pc.Idle?
  }

  // ----- The invariant -----

  /** The response of a request that has one, first or replayed. */
  function Answer(pc: Pc): Option<Response> {
    match pc
    case Committed(r) => Some(r)
    case Finished(Done(r)) => Some(r)
    case Finished(Replayed(r)) => Some(r)
    case _ => None
  }

  /** The committed order with this key is the one the response reports. */
  predicate Names(orders: seq<Order>, key: Key, r: Response) {
    exists k :: 0 <= k < |orders| && orders[k].key == key && orders[k].orderId == r.orderId && orders[k].total == r.total
  }

  predicate WorkerOk(s: System, wk: Worker) {
    && (wk.pc.Prepared? ==> wk.pc.order == OrderFor(wk.req, wk.pc.order.orderId))
    && (wk.pc.Prepared? ==> wk.pc.event == Relay.Event(wk.pc.event.id, Relay.OrderCreated, wk.pc.order.orderId))
    && (Answer(wk.pc).Some? ==> Names(s.orders, wk.req.key, Answer(wk.pc).value))
  }

  ghost predicate WorkersOk(s: System) {
    forall w :: 0 <= w < |s.workers| ==> WorkerOk(s, s.workers[w])
  }

  ghost predicate CacheOk(s: System) {
    forall key :: key in s.cache ==> Names(s.orders, key, s.cache[key])
  }

  ghost predicate Unique(orders: seq<Order>) {
    forall j, k :: 0 <= j < k < |orders| ==> orders[j].key != orders[k].key && orders[j].orderId != orders[k].orderId
  }

  /** The k-th outbox row announces the k-th order. */
  ghost predicate Paired(orders: seq<Order>, rows: seq<Relay.Row>) {
    && |orders| == |rows|
    && forall k :: 0 <= k < |rows| ==>
         rows[k].event == Relay.Event(rows[k].event.id, Relay.OrderCreated, orders[k].orderId)
  }

  /** Requests that got past their commit, whether or not anybody learned of it. */
  predicate HasCommitted(wk: Worker) {
    wk.pc.Committed? || (wk.pc.Finished? && (wk.pc.reply.Done? || wk.pc.reply == Killed(true)))
  }

  function Winners(workers: seq<Worker>): nat {
    if workers == [] then 0
    else Winners(workers[..|workers| - 1]) + if HasCommitted(workers[|workers| - 1]) then 1 else 0
  }

  ghost predicate Inv(s: System) {
    && WorkersOk(s) && CacheOk(s) && Unique(s.orders) && Paired(s.orders, s.outbox.rows) && Relay.Inv(s.outbox)
    && Winners(s.workers) == |s.orders|
  }

  // ----- Counting winners -----

  lemma {:induction false} WinnersUpdate(workers: seq<Worker>, w: nat, wk: Worker)
    requires w < |workers|
    ensures Winners(workers[w := wk])
      == Winners(workers) - (if HasCommitted(workers[w]) then 1 else 0) + (if HasCommitted(wk) then 1 else 0)
  {
    var n := |workers| - 1;
    if w < n {
      assert workers[w := wk][..n] == workers[..n][w := wk];
      WinnersUpdate(workers[..n], w, wk);
    } else {
      assert workers[w := wk][..n] == workers[..n];
    }
  }

  lemma {:induction false} WinnersSame(a: seq<Worker>, b: seq<Worker>)
    requires |a| == |b| && forall w :: 0 <= w < |a| ==> HasCommitted(a[w]) == HasCommitted(b[w])
    ensures Winners(a) == Winners(b)
  {
    if a != [] { WinnersSame(a[..|a| - 1], b[..|b| - 1]); }
  }

  lemma {:induction false} NoWinners(workers: seq<Worker>)
    requires Fresh(workers)
    ensures Winners(workers) == 0
  {
    if workers != [] { NoWinners(workers[..|workers| - 1]); }
  }

  // ----- Every step keeps the invariant -----

  /** Steps that write no row. */
  lemma {:induction false} QuietKeepsInv(s: System, w: nat, pc: Pc, cache: map<Key, Response>)
    requires Inv(s) && w < |s.workers|
    requires HasCommitted(s.workers[w]) == HasCommitted(s.workers[w].(pc := pc))
    requires WorkerOk(s, s.workers[w].(pc := pc))
    requires forall key :: key in cache ==> Names(s.orders, key, cache[key])
    ensures Inv(Update(s, w, pc).(cache := cache))
  {
    var s' := Update(s, w, pc).(cache := cache);
    WinnersUpdate(s.workers, w, s'.workers[w]);
    forall v | 0 <= v < |s'.workers| ensures WorkerOk(s', s'.workers[v]) {
      if v != w { assert WorkerOk(s, s.workers[v]); }
    }
  }

  lemma {:induction false} NamesGrow(orders: seq<Order>, o: Order, key: Key, r: Response)
    requires Names(orders, key, r)
    ensures Names(orders + [o], key, r)
  {
    var k :| 0 <= k < |orders| && orders[k].key == key && orders[k].orderId == r.orderId && orders[k].total == r.total;
    assert (orders + [o])[k] == orders[k];
  }

  lemma {:induction false} NamesLast(orders: seq<Order>, o: Order)
    ensures Names(orders + [o], o.key, Response(o.orderId, o.total))
  {
    assert (orders + [o])[|orders|] == o;
  }

  predicate CanCommit(s: System, w: nat) {
    && w < |s.workers| && s.workers[w].pc.Prepared?
    && !KeyTaken(s.orders, s.workers[w].pc.order.key)
    && !OrderIdTaken(s.orders, s.workers[w].pc.order.orderId)
    && !Relay.IdTaken(s.outbox.rows, s.workers[w].pc.event.id)
  }

  lemma {:induction false} CommitKeepsNames(s: System, w: nat, batch: nat)
    requires WorkersOk(s) && CacheOk(s) && CanCommit(s, w)
    ensures WorkersOk(CommitBoth(s, w, batch)) && CacheOk(CommitBoth(s, w, batch))
  {
    var s' := CommitBoth(s, w, batch);
    var o := s.workers[w].pc.order;
    assert s'.orders == s.orders + [o] && s'.cache == s.cache;
    forall key | key in s'.cache ensures Names(s'.orders, key, s'.cache[key]) {
      NamesGrow(s.orders, o, key, s.cache[key]);
    }
    forall v | 0 <= v < |s'.workers| ensures WorkerOk(s', s'.workers[v]) {
      assert WorkerOk(s, s.workers[v]);
      if v == w {
        NamesLast(s.orders, o);
      } else if Answer(s.workers[v].pc).Some? {
        NamesGrow(s.orders, o, s.workers[v].req.key, Answer(s.workers[v].pc).value);
      }
    }
  }

  lemma {:induction false} CommitKeepsPairs(s: System, w: nat, batch: nat)
    requires CanCommit(s, w) && WorkerOk(s, s.workers[w]) && Unique(s.orders) && Paired(s.orders, s.outbox.rows)
    ensures Unique(CommitBoth(s, w, batch).orders)
    ensures Paired(CommitBoth(s, w, batch).orders, CommitBoth(s, w, batch).outbox.rows)
  {
  }

  lemma {:induction false} CommitKeepsInv(s: System, w: nat, batch: nat)
    requires Inv(s) && CanCommit(s, w)
    ensures Inv(CommitBoth(s, w, batch))
  {
    assert WorkerOk(s, s.workers[w]);
    CommitKeepsNames(s, w, batch);
    CommitKeepsPairs(s, w, batch);
    Relay.NextKeepsInv(s.outbox, Relay.Write(s.workers[w].pc.event), batch);
    WinnersUpdate(s.workers, w, CommitBoth(s, w, batch).workers[w]);
  }

  lemma {:induction false} StepKeepsInv(s: System, w: nat, draw: Id, batch: nat)
    requires Inv(s) && w < |s.workers|
    ensures Inv(StepWorker(s, w, draw, batch))
  {
    var wk := s.workers[w];
    assert WorkerOk(s, wk);
    match wk.pc
    case Prepared(_, _) =>
      if CanCommit(s, w) { CommitKeepsInv(s, w, batch); } else { QuietKeepsInv(s, w, Finished(Failed), s.cache); }
    case Committed(r) => QuietKeepsInv(s, w, Finished(Done(r)), s.cache[wk.req.key := r]);
    case Finished(_) =>
    case _ => EarlyKeepsInv(s, w, draw, batch);
  }

  /** The steps before the transaction is flushed. */
  lemma {:induction false} EarlyKeepsInv(s: System, w: nat, draw: Id, batch: nat)
    requires Inv(s) && w < |s.workers|
    requires var pc := s.workers[w].pc; pc.Idle? || pc.Checked? || pc.Drawn? || pc.Ready?
    ensures Inv(StepWorker(s, w, draw, batch))
  {
    var pc := StepWorker(s, w, draw, batch).workers[w].pc;
    QuietKeepsInv(s, w, pc, s.cache);
    assert StepWorker(s, w, draw, batch) == Update(s, w, pc).(cache := s.cache);
  }

  lemma {:induction false} RestartKeepsInv(s: System, batch: nat)
    requires Inv(s)
    ensures Inv(Next(s, Restart, batch))
  {
    var s' := Next(s, Restart, batch);
    WinnersSame(s.workers, s'.workers);
    forall v | 0 <= v < |s'.workers| ensures WorkerOk(s', s'.workers[v]) {
      assert WorkerOk(s, s.workers[v]);
    }
  }

  lemma {:induction false} BackgroundKeepsInv(s: System, r: Relay.Action, batch: nat)
    requires Inv(s) && !r.Write?
    ensures Inv(Next(s, Background(r), batch))
  {
    var s' := Next(s, Background(r), batch);
    Relay.NextKeepsInv(s.outbox, r, batch);
    Relay.NextKeepsEvents(s.outbox, r, batch);
    forall v | 0 <= v < |s'.workers| ensures WorkerOk(s', s'.workers[v]) {
      assert WorkerOk(s, s.workers[v]);
    }
  }

  lemma {:induction false} NextKeepsInv(s: System, a: Action, batch: nat)
    requires Inv(s)
    ensures Inv(Next(s, a, batch))
  {
    match a
    case Step(w, draw) => if w < |s.workers| { StepKeepsInv(s, w, draw, batch); }
    case Abort(w) =>
      if w < |s.workers| && InTransaction(s.workers[w].pc) { QuietKeepsInv(s, w, Finished(Failed), s.cache); }
    case Restart => RestartKeepsInv(s, batch);
    case Background(r) => if !r.Write? { BackgroundKeepsInv(s, r, batch); }
  }

  lemma {:induction false} RunKeepsInv(workers: seq<Worker>, actions: seq<Action>, batch: nat)
    requires Fresh(workers)
    ensures Inv(Run(Initial(workers), actions, batch))
  {
    if actions == [] {
      NoWinners(workers);
    } else {
      RunKeepsInv(workers, actions[..|actions| - 1], batch);
      NextKeepsInv(Run(Initial(workers), actions[..|actions| - 1], batch), actions[|actions| - 1], batch);
    }
  }

  // ----- Main results -----

  /** For any interleaving over both routes, any collision of drawn ids, any aborts and any number of restarts: each key
      commits at most one order, there are as many orders as requests that got past their commit, so a loser leaves
      nothing behind, and every response and every cache entry names the committed order with its key. */
  lemma {:induction false} AtMostOnce(workers: seq<Worker>, actions: seq<Action>, batch: nat)
    requires Fresh(workers)
    ensures var s := Run(Initial(workers), actions, batch);
      && (forall j, k :: 0 <= j < k < |s.orders| ==> s.orders[j].key != s.orders[k].key)
      && Winners(s.workers) == |s.orders|
      && (forall key :: key in s.cache ==> Names(s.orders, key, s.cache[key]))
      && (forall w :: 0 <= w < |s.workers| && Answer(s.workers[w].pc).Some? ==>
            Names(s.orders, s.workers[w].req.key, Answer(s.workers[w].pc).value))
  {
    RunKeepsInv(workers, actions, batch);
    var s := Run(Initial(workers), actions, batch);
    assert forall w :: 0 <= w < |s.workers| ==> WorkerOk(s, s.workers[w]);
  }

  /** Orders and outbox rows are in one-to-one correspondence, and the stream speaks only of committed orders. */
  lemma {:induction false} OneEventPerOrder(workers: seq<Worker>, actions: seq<Action>, batch: nat)
    requires Fresh(workers)
    ensures var s := Run(Initial(workers), actions, batch);
      && Paired(s.orders, s.outbox.rows)
      && (forall j, k :: 0 <= j < k < |s.orders| ==>
            s.orders[j].orderId != s.orders[k].orderId && s.outbox.rows[j].event.id != s.outbox.rows[k].event.id)
      && (forall i :: 0 <= i < |s.outbox.stream| ==>
            s.outbox.stream[i].kind.OrderCreated? && OrderIdTaken(s.orders, s.outbox.stream[i].orderId))
  {
    RunKeepsInv(workers, actions, batch);
    var s := Run(Initial(workers), actions, batch);
    forall i | 0 <= i < |s.outbox.stream|
      ensures s.outbox.stream[i].kind.OrderCreated? && OrderIdTaken(s.orders, s.outbox.stream[i].orderId)
    {
      assert Relay.HasEvent(s.outbox.rows, s.outbox.stream[i]);
      var k :| 0 <= k < |s.outbox.rows| && s.outbox.rows[k].event == s.outbox.stream[i];
      assert s.orders[k].orderId == s.outbox.stream[i].orderId;
    }
  }

  /** No publish raises in the run. */
  predicate NoException(actions: seq<Action>) {
    forall k :: 0 <= k < |actions| && actions[k].Background? && actions[k].action.PublishNext? ==>
                actions[k].action.outcome.Ok?
  }

  lemma {:induction false} RelayAppend(trace: seq<Relay.Action>, a: Relay.Action, batch: nat)
    ensures Relay.Run(Relay.Initial(), trace + [a], batch) == Relay.Next(Relay.Run(Relay.Initial(), trace, batch), a, batch)
  {
    assert (trace + [a])[..|trace|] == trace;
  }

  /** What an action does to the outbox, as an action of the relay. */
  function RelayStep(s: System, a: Action): Option<Relay.Action> {
    if a.Step? && CanCommit(s, a.worker) then Some(Relay.Write(s.workers[a.worker].pc.event))
    else if a.Background? && !a.action.Write? then Some(a.action)
    else None
  }

  lemma {:induction false} OutboxMoves(s: System, a: Action, batch: nat)
    ensures Next(s, a, batch).outbox
      == match RelayStep(s, a) case Some(r) => Relay.Next(s.outbox, r, batch) case None => s.outbox
  {
    if a.Step? && a.worker < |s.workers| { StepMovesOutbox(s, a.worker, a.draw, batch); }
  }

  lemma {:induction false} StepMovesOutbox(s: System, w: nat, draw: Id, batch: nat)
    requires w < |s.workers|
    ensures StepWorker(s, w, draw, batch).outbox
      == if CanCommit(s, w) then Relay.Next(s.outbox, Relay.Write(s.workers[w].pc.event), batch) else s.outbox
  {
    match s.workers[w].pc
    case Prepared(_, _) =>
    case _ =>
  }

  /** The run as the outbox sees it. */
  function Trace(workers: seq<Worker>, actions: seq<Action>, batch: nat): seq<Relay.Action> {
    if actions == [] then []
    else
      var before := actions[..|actions| - 1];
      var step := RelayStep(Run(Initial(workers), before, batch), actions[|actions| - 1]);
      Trace(workers, before, batch) + if step.Some? then [step.value] else []
  }

  /** Seen from the outbox, every run is a run of the relay, so all that holds of those holds here. */
  lemma {:induction false} OutboxRunsTheRelay(workers: seq<Worker>, actions: seq<Action>, batch: nat)
    ensures Run(Initial(workers), actions, batch).outbox == Relay.Run(Relay.Initial(), Trace(workers, actions, batch), batch)
  {
    if actions != [] {
      var before, a := actions[..|actions| - 1], actions[|actions| - 1];
      var s, trace := Run(Initial(workers), before, batch), Trace(workers, before, batch);
      OutboxRunsTheRelay(workers, before, batch);
      OutboxMoves(s, a, batch);
      var step := RelayStep(s, a);
      if step.Some? {
        RelayAppend(trace, step.value, batch);
      } else {
        assert trace + [] == trace;
      }
    }
  }

  /** A run without publish exceptions is one in the eyes of the outbox. */
  lemma {:induction false} TraceIsCalm(workers: seq<Worker>, actions: seq<Action>, batch: nat)
    requires NoException(actions)
    ensures RelayGuarantees.NoException(Trace(workers, actions, batch))
  {
    if actions != [] {
      var n := |actions| - 1;
      assert NoException(actions[..n]);
      TraceIsCalm(workers, actions[..n], batch);
      assert actions[n].Background? && actions[n].action.PublishNext? ==> actions[n].action.outcome.Ok?;
    }
  }

  /** An order whose row is PUBLISHED is announced in the stream; while no publish raises, orders are first announced in
      the order in which they were committed. */
  lemma {:induction false} OrdersAreAnnounced(workers: seq<Worker>, actions: seq<Action>, batch: nat)
    requires Fresh(workers)
    ensures var s := Run(Initial(workers), actions, batch);
      && |s.orders| == |s.outbox.rows|
      && (forall k :: 0 <= k < |s.orders| && s.outbox.rows[k].status.Published? ==> s.outbox.rows[k].event in s.outbox.stream)
      && (NoException(actions) ==>
            forall j, k :: 0 <= j < k < |s.outbox.rows| ==> RelayGuarantees.Before(s.outbox, j, k))
  {
    RunKeepsInv(workers, actions, batch);
    if NoException(actions) {
      OutboxRunsTheRelay(workers, actions, batch);
      TraceIsCalm(workers, actions, batch);
      RelayGuarantees.FirstOccurrencesInRowOrder(Trace(workers, actions, batch), batch);
    }
  }
}
