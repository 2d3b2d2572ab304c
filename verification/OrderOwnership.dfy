/** Whose orders are committed: every order is what one request asked for, in the name of its authenticated user if it has
    one. */
module OrderOwnership {
  import opened Common
  import Relay
  import opened OrderRace

  /** The order carries the fields of the request; the user of the token goes before the customer of the body. */
  predicate AsRequested(req: Request, o: Order) {
    && (req.user.Some? ==> o.customerId == req.user.value)
    && (req.user.None? ==> o.customerId == req.customerId)
    && o.restaurantId == req.restaurantId && o.items == req.items && o.total == req.total && o.key == req.key
  }

  predicate IsSourceOf(wk: Worker, o: Order) {
    HasCommitted(wk) && AsRequested(wk.req, o) && (wk.req.route.Versioned? ==> wk.req.user.Some?)
  }

  /** Some request that got past its commit asked for this order. */
  predicate HasSource(workers: seq<Worker>, o: Order) {
    exists w :: 0 <= w < |workers| && IsSourceOf(workers[w], o)
  }

  predicate HasOrder(orders: seq<Order>, req: Request) {
    exists k :: 0 <= k < |orders| && AsRequested(req, orders[k])
  }

  /** Past the check of the token. */
  predicate Entered(wk: Worker) {
    wk.pc.Checked? || wk.pc.Drawn? || wk.pc.Ready? || wk.pc.Prepared? || HasCommitted(wk)
  }

  predicate WorkerOwns(orders: seq<Order>, wk: Worker) {
    && (Entered(wk) && wk.req.route.Versioned? ==> wk.req.user.Some?)
    && (wk.pc.Prepared? ==> AsRequested(wk.req, wk.pc.order))
    && (HasCommitted(wk) ==> HasOrder(orders, wk.req))
  }

  ghost predicate Owned(s: System) {
    && (forall k :: 0 <= k < |s.orders| ==> HasSource(s.workers, s.orders[k]))
    && (forall w :: 0 <= w < |s.workers| ==> WorkerOwns(s.orders, s.workers[w]))
  }

  lemma {:induction false} SourceStays(workers: seq<Worker>, w: nat, wk: Worker, o: Order)
    requires HasSource(workers, o) && w < |workers| && wk.req == workers[w].req
    requires HasCommitted(workers[w]) ==> HasCommitted(wk)
    ensures HasSource(workers[w := wk], o)
  {
    var v :| 0 <= v < |workers| && IsSourceOf(workers[v], o);
    assert IsSourceOf(workers[w := wk][v], o);
  }

  lemma {:induction false} MoveKeepsOwned(s: System, w: nat, pc: Pc, s': System)
    requires Owned(s) && w < |s.workers| && s'.orders == s.orders && s'.workers == Update(s, w, pc).workers
    requires HasCommitted(s.workers[w]) ==> HasCommitted(s.workers[w].(pc := pc))
    requires WorkerOwns(s.orders, s.workers[w].(pc := pc))
    ensures Owned(s')
  {
    forall k | 0 <= k < |s'.orders| ensures HasSource(s'.workers, s'.orders[k]) {
      SourceStays(s.workers, w, s'.workers[w], s.orders[k]);
    }
  }

  lemma {:induction false} HasOrderGrows(orders: seq<Order>, o: Order, req: Request)
    requires HasOrder(orders, req) || AsRequested(req, o)
    ensures HasOrder(orders + [o], req)
  {
    if HasOrder(orders, req) {
      var k :| 0 <= k < |orders| && AsRequested(req, orders[k]);
      assert AsRequested(req, (orders + [o])[k]);
    } else {
      assert (orders + [o])[|orders|] == o;
    }
  }

  lemma {:induction false} CommitKeepsOwned(s: System, w: nat, batch: nat)
    requires Owned(s) && CanCommit(s, w)
    ensures Owned(CommitBoth(s, w, batch))
  {
    var s', o := CommitBoth(s, w, batch), s.workers[w].pc.order;
    assert WorkerOwns(s.orders, s.workers[w]);
    assert s'.orders == s.orders + [o] && s'.workers == s.workers[w := s'.workers[w]];
    assert IsSourceOf(s'.workers[w], o);
    forall k | 0 <= k < |s'.orders| ensures HasSource(s'.workers, s'.orders[k]) {
      if k < |s.orders| { SourceStays(s.workers, w, s'.workers[w], s.orders[k]); }
    }
    forall v | 0 <= v < |s'.workers| ensures WorkerOwns(s'.orders, s'.workers[v]) {
      assert WorkerOwns(s.orders, s.workers[v]);
      if HasCommitted(s'.workers[v]) { HasOrderGrows(s.orders, o, s'.workers[v].req); }
    }
  }

  /** The order that a step prepares is the one that was asked for. */
  lemma {:induction false} PreparedAsRequested(s: System, w: nat, draw: Id, batch: nat)
    requires w < |s.workers| && s.workers[w].pc.Ready?
    ensures var pc := StepWorker(s, w, draw, batch).workers[w].pc;
      pc.Prepared? && AsRequested(s.workers[w].req, pc.order) && pc.order.orderId == s.workers[w].pc.orderId
  {
  }

  lemma {:induction false} EarlyStep(s: System, w: nat, draw: Id, batch: nat)
    requires w < |s.workers| && WorkerOwns(s.orders, s.workers[w])
    requires !s.workers[w].pc.Prepared? && !s.workers[w].pc.Finished?
    ensures var s' := StepWorker(s, w, draw, batch);
      && s'.orders == s.orders && |s'.workers| == |s.workers|
      && s'.workers == Update(s, w, s'.workers[w].pc).workers
      && HasCommitted(s.workers[w]) == HasCommitted(s'.workers[w])
      && WorkerOwns(s.orders, s'.workers[w])
  {
    if s.workers[w].pc.Ready? { PreparedAsRequested(s, w, draw, batch); }
  }

  lemma {:induction false} StepKeepsOwned(s: System, w: nat, draw: Id, batch: nat)
    requires Owned(s) && w < |s.workers|
    ensures Owned(StepWorker(s, w, draw, batch))
  {
    assert WorkerOwns(s.orders, s.workers[w]);
    if s.workers[w].pc.Prepared? {
      if CanCommit(s, w) {
        CommitKeepsOwned(s, w, batch);
      } else {
        MoveKeepsOwned(s, w, Finished(Failed), StepWorker(s, w, draw, batch));
      }
    } else if !s.workers[w].pc.Finished? {
      EarlyStep(s, w, draw, batch);
      MoveKeepsOwned(s, w, StepWorker(s, w, draw, batch).workers[w].pc, StepWorker(s, w, draw, batch));
    }
  }

  lemma {:induction false} KilledSource(workers: seq<Worker>, o: Order)
    requires HasSource(workers, o)
    ensures HasSource(Map(Kill, workers), o)
  {
    var v :| 0 <= v < |workers| && IsSourceOf(workers[v], o);
    assert IsSourceOf(Map(Kill, workers)[v], o);
  }

  lemma {:induction false} RestartKeepsOwned(s: System, batch: nat)
    requires Owned(s)
    ensures Owned(Next(s, Restart, batch))
  {
    var s' := Next(s, Restart, batch);
    forall k | 0 <= k < |s'.orders| ensures HasSource(s'.workers, s'.orders[k]) {
      KilledSource(s.workers, s.orders[k]);
    }
    forall w | 0 <= w < |s'.workers| ensures WorkerOwns(s'.orders, s'.workers[w]) {
      assert WorkerOwns(s.orders, s.workers[w]);
    }
  }

  lemma {:induction false} RunKeepsOwned(workers: seq<Worker>, actions: seq<Action>, batch: nat)
    requires Fresh(workers)
    ensures Owned(Run(Initial(workers), actions, batch))
  {
    if actions != [] {
      var before, a := actions[..|actions| - 1], actions[|actions| - 1];
      RunKeepsOwned(workers, before, batch);
      var s := Run(Initial(workers), before, batch);
      match a
      case Step(w, draw) => if w < |s.workers| { StepKeepsOwned(s, w, draw, batch); }
      case Abort(w) =>
        if w < |s.workers| && InTransaction(s.workers[w].pc) {
          MoveKeepsOwned(s, w, Finished(Failed), Next(s, a, batch));
        }
      case Restart => RestartKeepsOwned(s, batch);
      case Background(_) => assert Next(s, a, batch).orders == s.orders && Next(s, a, batch).workers == s.workers;
    }
  }

  /** In every run: each committed order is what one request asked for that got past its commit, under its user's id when it
      has one and under the body's customer otherwise, and on the versioned route always under the user's id; each
      request that got past its commit has its order; and a first reply reports that very order. */
  lemma {:induction false} EveryOrderHasItsRequest(workers: seq<Worker>, actions: seq<Action>, batch: nat)
    requires Fresh(workers)
    ensures var s := Run(Initial(workers), actions, batch);
      && (forall k :: 0 <= k < |s.orders| ==> HasSource(s.workers, s.orders[k]))
      && (forall w :: 0 <= w < |s.workers| && HasCommitted(s.workers[w]) ==> HasOrder(s.orders, s.workers[w].req))
      && (forall w :: 0 <= w < |s.workers| && s.workers[w].pc.Finished? && s.workers[w].pc.reply.Done? ==>
            Reports(s.orders, s.workers[w].req, s.workers[w].pc.reply.response))
  {
    RunKeepsInv(workers, actions, batch);
    RunKeepsOwned(workers, actions, batch);
    var s := Run(Initial(workers), actions, batch);
    forall w | 0 <= w < |s.workers| && s.workers[w].pc.Finished? && s.workers[w].pc.reply.Done?
      ensures Reports(s.orders, s.workers[w].req, s.workers[w].pc.reply.response)
    {
      assert WorkerOk(s, s.workers[w]) && WorkerOwns(s.orders, s.workers[w]);
      OwnReply(s.orders, s.workers[w].req, s.workers[w].pc.reply.response);
    }
  }

  /** The response is of the order that the request asked for. */
  predicate Reports(orders: seq<Order>, req: Request, r: Response) {
    exists k :: 0 <= k < |orders| && AsRequested(req, orders[k]) && r == Response(orders[k].orderId, req.total)
  }

  lemma {:induction false} OwnReply(orders: seq<Order>, req: Request, r: Response)
    requires Unique(orders) && Names(orders, req.key, r) && HasOrder(orders, req)
    ensures Reports(orders, req, r)
  {
    var j :| 0 <= j < |orders| && orders[j].key == req.key && orders[j].orderId == r.orderId && orders[j].total == r.total;
    var k :| 0 <= k < |orders| && AsRequested(req, orders[k]);
    assert j == k;
  }
}
