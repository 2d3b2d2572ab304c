/** What every schedule of concurrent reservations guarantees, and the flash sale. */
module FlashSale {
  import opened Common
  import opened Stock
  import opened InventoryRace

  // ----- Any requests, any schedule, aborts and restarts -----

  /** At most one reservation per key; losers, aborted and killed requests leave no trace in the stock; every RESERVED
      reply, first or replayed, and every RESERVED cache entry names the committed reservation with its key; nobody is
      turned away while all items are in stock. */
  lemma {:induction false} AtMostOnce(stock: map<Item, int>, workers: seq<Worker>, actions: seq<Action>)
    requires Fresh(workers)
    ensures var s := Run(Initial(stock, workers), actions);
      && (forall j, k :: 0 <= j < k < |s.rows| ==> s.rows[j].key != s.rows[k].key)
      && s.stock.Keys == stock.Keys
      && (forall item :: item in stock ==> s.stock[item] == stock[item] - UnitsSold(s.rows, item))
      && (forall key :: key in s.cache && s.cache[key].ReservedEntry? ==> RowOf(s.rows, key, s.cache[key].worker))
      && (forall w :: 0 <= w < |s.workers| ==>
            match s.workers[w].pc
            case Finished(Won) => RowOf(s.rows, s.workers[w].key, w)
            case Finished(Replayed(ReservedEntry(v))) => RowOf(s.rows, s.workers[w].key, v)
            case Finished(SoldOut) => Exhausted(s.stock, s.workers[w].items)
            case _ => true)
  {
    RunKeepsInv(stock, workers, actions);
    var s := Run(Initial(stock, workers), actions);
    assert forall w :: 0 <= w < |s.workers| ==> Backed(s.workers[w], w, s.rows);
  }

  predicate SameRequests(a: seq<Worker>, b: seq<Worker>) {
    |a| == |b| && forall w :: 0 <= w < |a| ==> a[w].key == b[w].key && a[w].items == b[w].items
  }

  /** A step of one worker changes that worker, possibly the cache entry of its key, and no other worker. */
  lemma {:induction false} StepIsLocal(s: System, w: nat)
    requires w < |s.workers|
    ensures var s' := StepWorker(s, w);
      && s'.workers == s.workers[w := s'.workers[w]]
      && s'.workers[w].key == s.workers[w].key && s'.workers[w].items == s.workers[w].items
      && (s.workers[w].pc.Finished? ==> s'.workers[w].pc.Finished?)
      && (forall key :: key in s'.cache && key !in s.cache ==> key == s.workers[w].key && s'.workers[w].pc.Finished?)
  {
    var s', wk := StepWorker(s, w), s.workers[w];
    match wk.pc
    case Idle =>
    case Checking(p) => if p < |wk.items| { CheckIsLocal(s, w); }
    case Decrementing(p) =>
    case Committed =>
    case Finished(_) => assert s.workers == s.workers[w := wk];
  }

  lemma {:induction false} CheckIsLocal(s: System, w: nat)
    requires w < |s.workers| && s.workers[w].pc.Checking? && s.workers[w].pc.done < |s.workers[w].items|
    ensures var s' := CheckNext(s, w);
      && s'.workers == s.workers[w := s'.workers[w]]
      && s'.workers[w].key == s.workers[w].key && s'.workers[w].items == s.workers[w].items
      && (forall key :: key in s'.cache && key !in s.cache ==> key == s.workers[w].key && s'.workers[w].pc.Finished?)
  {
    assert s.workers == s.workers[w := s.workers[w]];
  }

  lemma {:induction false} NextKeepsRequests(s: System, a: Action)
    ensures SameRequests(s.workers, Next(s, a).workers)
  {
    if a.Step? && a.worker < |s.workers| { StepIsLocal(s, a.worker); }
  }

  lemma {:induction false} RunKeepsRequests(s: System, actions: seq<Action>)
    ensures SameRequests(s.workers, Run(s, actions).workers)
  {
    if actions != [] {
      RunKeepsRequests(s, actions[..|actions| - 1]);
      NextKeepsRequests(Run(s, actions[..|actions| - 1]), actions[|actions| - 1]);
    }
  }

  /** Only a commit changes the stock, by an all-or-nothing subtraction of available items. */
  lemma {:induction false} StockMoves(s: System, a: Action, initial: map<Item, int>)
    requires Inv(s, initial)
    ensures Next(s, a).stock == s.stock
      || (a.Step? && a.worker < |s.workers| && Available(s.stock, s.workers[a.worker].items)
          && Next(s, a).stock == Subtract(s.stock, s.workers[a.worker].items))
  {
    if a.Step? && a.worker < |s.workers| {
      var wk := s.workers[a.worker];
      if wk.pc.Decrementing? && wk.pc.done >= |wk.items| {
        CommitMoves(s, a.worker, initial);
      } else {
        OthersKeepStock(s, a.worker);
      }
    }
  }

  lemma {:induction false} CommitMoves(s: System, w: nat, initial: map<Item, int>)
    requires Inv(s, initial) && w < |s.workers|
    requires s.workers[w].pc.Decrementing? && s.workers[w].pc.done >= |s.workers[w].items|
    ensures CommitAll(s, w).stock == s.stock
      || (Available(s.stock, s.workers[w].items) && CommitAll(s, w).stock == Subtract(s.stock, s.workers[w].items))
  {
    assert Progress(s.workers[w]) && Owns(s.workers[w], w, s.stock, s.locks);
    WriteBack(s.workers[w], w, s.stock, s.locks);
  }

  lemma {:induction false} OthersKeepStock(s: System, w: nat)
    requires w < |s.workers|
    requires !(s.workers[w].pc.Decrementing? && s.workers[w].pc.done >= |s.workers[w].items|)
    ensures StepWorker(s, w).stock == s.stock
  {
  }

  /** If no request lists an item more than `m` times its stock never falls below `1 - m`, in any schedule; with
      `m == 1`, that is without repeated items, it is never negative. */
  lemma {:induction false} StockBound(stock: map<Item, int>, workers: seq<Worker>, actions: seq<Action>, item: Item, m: nat)
    requires Fresh(workers) && item in stock && stock[item] >= 0 && m >= 1
    requires forall w :: 0 <= w < |workers| ==> Units(workers[w].items, item) <= m
    ensures var s := Run(Initial(stock, workers), actions); item in s.stock && s.stock[item] >= 1 - m
  {
    if actions != [] {
      var before, a := actions[..|actions| - 1], actions[|actions| - 1];
      StockBound(stock, workers, before, item, m);
      var s := Run(Initial(stock, workers), before);
      RunKeepsInv(stock, workers, before);
      RunKeepsRequests(Initial(stock, workers), before);
      StockMoves(s, a, stock);
      if a.Step? && a.worker < |s.workers| && Available(s.stock, s.workers[a.worker].items) {
        SubtractBound(s.stock, s.workers[a.worker].items, item);
      }
    }
  }

  // ----- The flash sale -----

  /** Single-item requests for the same item under distinct keys. */
  predicate Rush(workers: seq<Worker>, item: Item) {
    && (forall w :: 0 <= w < |workers| ==> workers[w].items == [item])
    && (forall v, w :: 0 <= v < w < |workers| ==> workers[v].key != workers[w].key)
  }

  predicate OnlySteps(actions: seq<Action>) {
    forall k :: 0 <= k < |actions| ==> actions[k].Step?
  }

  predicate Complete(s: System) {
    forall w :: 0 <= w < |s.workers| ==> s.workers[w].pc.Finished?
  }

  predicate AnsweredKey(workers: seq<Worker>, key: Key) {
    exists w :: 0 <= w < |workers| && workers[w].key == key && workers[w].pc.Finished?
  }

  predicate Sold(r: Reply) {
    r.Won? || r.SoldOut?
  }

  /** Nobody is replayed or fails: the cache and the table only know keys of requests that are past their commit. */
  ghost predicate CleanRun(s: System) {
    && (forall w :: 0 <= w < |s.workers| && s.workers[w].pc.Finished? ==> Sold(s.workers[w].pc.reply))
    && (forall key :: key in s.cache ==> AnsweredKey(s.workers, key))
  }

  lemma {:induction false} AnsweredStays(workers: seq<Worker>, w: nat, wk: Worker, key: Key)
    requires w < |workers| && AnsweredKey(workers, key) && wk.key == workers[w].key
    requires workers[w].pc.Finished? ==> wk.pc.Finished?
    ensures AnsweredKey(workers[w := wk], key)
  {
    var v :| 0 <= v < |workers| && workers[v].key == key && workers[v].pc.Finished?;
    assert workers[w := wk][v].key == key && workers[w := wk][v].pc.Finished?;
  }

  lemma {:induction false} StepKeepsClean(s: System, w: nat, item: Item, initial: map<Item, int>)
    requires Inv(s, initial) && CleanRun(s) && Rush(s.workers, item) && w < |s.workers|
    ensures CleanRun(StepWorker(s, w))
  {
    var s', wk := StepWorker(s, w), s.workers[w];
    StepIsLocal(s, w);
    forall key | key in s'.cache ensures AnsweredKey(s'.workers, key) {
      if key in s.cache { AnsweredStays(s.workers, w, s'.workers[w], key); }
    }
    NoFailure(s, w, item, initial);
  }

  /** A request that is not answered has a key of its own, unknown to the cache and the table. */
  lemma {:induction false} KeyIsNew(s: System, w: nat, item: Item, initial: map<Item, int>)
    requires Inv(s, initial) && CleanRun(s) && Rush(s.workers, item) && w < |s.workers|
    requires !s.workers[w].pc.Finished? && !s.workers[w].pc.Committed?
    ensures s.workers[w].key !in s.cache && !KeyTaken(s.rows, s.workers[w].key)
  {
    forall key | key in s.cache ensures key != s.workers[w].key {
      assert AnsweredKey(s.workers, key);
      var v :| 0 <= v < |s.workers| && s.workers[v].key == key && s.workers[v].pc.Finished?;
      assert v != w;
    }
    forall k | 0 <= k < |s.rows| ensures s.rows[k].key != s.workers[w].key {
      assert HasCommitted(s.workers[s.rows[k].worker]);
      assert s.rows[k].worker != w;
    }
  }

  lemma {:induction false} NoFailure(s: System, w: nat, item: Item, initial: map<Item, int>)
    requires Inv(s, initial) && CleanRun(s) && Rush(s.workers, item) && w < |s.workers|
    ensures StepWorker(s, w).workers[w].pc.Finished? ==> Sold(StepWorker(s, w).workers[w].pc.reply)
  {
    match s.workers[w].pc
    case Idle => KeyIsNew(s, w, item, initial);
    case Checking(_) =>
    case Decrementing(_) => KeyIsNew(s, w, item, initial);
    case Committed =>
    case Finished(_) => assert StepWorker(s, w) == s;
  }

  lemma {:induction false} RushStaysClean(stock: map<Item, int>, workers: seq<Worker>, actions: seq<Action>, item: Item)
    requires Fresh(workers) && Rush(workers, item) && OnlySteps(actions)
    ensures var s := Run(Initial(stock, workers), actions); CleanRun(s) && Rush(s.workers, item) && Inv(s, stock)
  {
    RunKeepsInv(stock, workers, actions);
    RunKeepsRequests(Initial(stock, workers), actions);
    var s' := Run(Initial(stock, workers), actions);
    assert Rush(s'.workers, item);
    if actions != [] {
      var before, a := actions[..|actions| - 1], actions[|actions| - 1];
      assert a.Step?;
      RushStaysClean(stock, workers, before, item);
      var s := Run(Initial(stock, workers), before);
      if a.worker < |s.workers| { StepKeepsClean(s, a.worker, item, stock); }
    }
  }

  function CountReply(workers: seq<Worker>, reply: Reply): nat {
    if workers == [] then 0
    else CountReply(workers[..|workers| - 1], reply) + if workers[|workers| - 1].pc == Finished(reply) then 1 else 0
  }

  lemma {:induction false} CountsAddUp(workers: seq<Worker>)
    requires forall w :: 0 <= w < |workers| ==> workers[w].pc == Finished(Won) || workers[w].pc == Finished(SoldOut)
    ensures CountReply(workers, Won) == CommittedCount(workers)
    ensures CountReply(workers, Won) + CountReply(workers, SoldOut) == |workers|
    ensures CountReply(workers, SoldOut) > 0 ==> exists w :: 0 <= w < |workers| && workers[w].pc == Finished(SoldOut)
  {
    if workers != [] {
      var n := |workers| - 1;
      CountsAddUp(workers[..n]);
      if CountReply(workers[..n], SoldOut) > 0 {
        var w :| 0 <= w < n && workers[..n][w].pc == Finished(SoldOut);
        assert workers[w].pc == Finished(SoldOut);
      }
    }
  }

  lemma {:induction false} SoldIsCount(rows: seq<Row>, item: Item)
    requires forall k :: 0 <= k < |rows| ==> rows[k].items == [item]
    ensures UnitsSold(rows, item) == |rows|
  {
    if rows != [] {
      SoldIsCount(rows[..|rows| - 1], item);
      assert [item][..0] == [] && Units([item], item) == 1;
    }
  }

  /** Once everybody is answered, the numbers follow from the invariants. */
  lemma {:induction false} SaleAddsUp(s: System, stock: map<Item, int>, item: Item)
    requires Inv(s, stock) && CleanRun(s) && Rush(s.workers, item) && Complete(s)
    requires item in stock && item in s.stock && s.stock[item] >= 0
    ensures CountReply(s.workers, Won) == Min(|s.workers|, stock[item])
    ensures CountReply(s.workers, SoldOut) == |s.workers| - Min(|s.workers|, stock[item])
    ensures s.stock[item] == stock[item] - Min(|s.workers|, stock[item])
  {
    WinnersEmptyTheStock(s, stock, item);
    CountsAddUp(s.workers);
    if CountReply(s.workers, SoldOut) > 0 {
      var w :| 0 <= w < |s.workers| && s.workers[w].pc == Finished(SoldOut);
      LoserFoundNothing(s, w, item);
    }
  }

  lemma {:induction false} WinnersEmptyTheStock(s: System, stock: map<Item, int>, item: Item)
    requires RowsOk(s.rows, s.workers) && StockOk(s.stock, s.rows, stock) && Rush(s.workers, item) && item in stock
    ensures item in s.stock && s.stock[item] == stock[item] - CommittedCount(s.workers)
  {
    assert forall k :: 0 <= k < |s.rows| ==> s.rows[k].items == [item];
    SoldIsCount(s.rows, item);
  }

  lemma {:induction false} LoserFoundNothing(s: System, w: nat, item: Item)
    requires RejectionsOk(s.workers, s.stock) && Rush(s.workers, item) && item in s.stock
    requires w < |s.workers| && s.workers[w].pc == Finished(SoldOut)
    ensures s.stock[item] <= 0
  {
    assert Exhausted(s.stock, s.workers[w].items);
  }

  /** Flash sale: in every complete schedule of `n` concurrent single-item requests against stock `s`, exactly `min(n, s)`
      are answered RESERVED, all others OUT_OF_STOCK, and the stock ends at `s - min(n, s)`. */
  lemma {:induction false} ExactlyTheStockIsSold(stock: map<Item, int>, workers: seq<Worker>, actions: seq<Action>, item: Item)
    requires Fresh(workers) && Rush(workers, item) && OnlySteps(actions)
    requires item in stock && stock[item] >= 0
    requires Complete(Run(Initial(stock, workers), actions))
    ensures var s := Run(Initial(stock, workers), actions);
      && CountReply(s.workers, Won) == Min(|workers|, stock[item])
      && CountReply(s.workers, SoldOut) == |workers| - Min(|workers|, stock[item])
      && item in s.stock && s.stock[item] == stock[item] - Min(|workers|, stock[item])
  {
    RushStaysClean(stock, workers, actions, item);
    RunKeepsRequests(Initial(stock, workers), actions);
    RushBound(stock, workers, actions, item);
    SaleAddsUp(Run(Initial(stock, workers), actions), stock, item);
  }

  /** On the way the stock is never negative. */
  lemma {:induction false} RushBound(stock: map<Item, int>, workers: seq<Worker>, actions: seq<Action>, item: Item)
    requires Fresh(workers) && Rush(workers, item) && item in stock && stock[item] >= 0
    ensures var s := Run(Initial(stock, workers), actions); item in s.stock && s.stock[item] >= 0
  {
    forall w | 0 <= w < |workers| ensures Units(workers[w].items, item) <= 1 {
      assert [item][..0] == [] && Units([item], item) == 1;
    }
    StockBound(stock, workers, actions, item, 1);
  }

  /** The holder of the row can go on. */
  lemma {:induction false} HolderMoves(s: System, item: Item, initial: map<Item, int>)
    requires Inv(s, initial) && Rush(s.workers, item) && item in s.locks
    ensures var h := s.locks[item]; h < |s.workers| && StepWorker(s, h).workers[h].pc != s.workers[h].pc
  {
    var h := s.locks[item];
    assert item in Locked(s.workers[h]);
    AboutWorker(s, h, initial);
    OwnerMoves(s, h, item);
  }

  lemma {:induction false} OwnerMoves(s: System, h: nat, item: Item)
    requires h < |s.workers| && s.workers[h].items == [item] && item in Locked(s.workers[h])
    requires Progress(s.workers[h]) && Owns(s.workers[h], h, s.stock, s.locks)
    ensures StepWorker(s, h).workers[h].pc != s.workers[h].pc
  {
    var wk := s.workers[h];
    if wk.pc.Decrementing? && wk.pc.done < |wk.items| { TakeNextOwns(wk, h, s.stock, s.locks); }
  }

  lemma {:induction false} LockedIsItem(wk: Worker, item: Item)
    requires wk.items == [item] && Progress(wk)
    ensures Locked(wk) == [] || item in Locked(wk)
  {
    if Locked(wk) != [] { assert Locked(wk)[0] == item; }
  }

  /** With the row free, any unanswered request can go on. */
  lemma {:induction false} FreeMoves(s: System, w: nat, item: Item, initial: map<Item, int>)
    requires Inv(s, initial) && Rush(s.workers, item) && item !in s.locks
    requires w < |s.workers| && !s.workers[w].pc.Finished?
    ensures StepWorker(s, w).workers[w].pc != s.workers[w].pc
  {
    var wk := s.workers[w];
    assert Progress(wk) && Owns(wk, w, s.stock, s.locks);
    LockedIsItem(wk, item);
    match wk.pc
    case Idle =>
    case Checking(p) => assert p == 0;
    case Decrementing(_) =>
    case Committed =>
  }

  /** No schedule gets stuck: until every request is answered, some request can move. */
  lemma {:induction false} NeverStuck(stock: map<Item, int>, workers: seq<Worker>, actions: seq<Action>, item: Item)
    requires Fresh(workers) && Rush(workers, item) && OnlySteps(actions)
    requires !Complete(Run(Initial(stock, workers), actions))
    ensures var s := Run(Initial(stock, workers), actions);
      exists w :: 0 <= w < |s.workers| && StepWorker(s, w).workers[w].pc != s.workers[w].pc
  {
    var s := Run(Initial(stock, workers), actions);
    RushStaysClean(stock, workers, actions, item);
    if item in s.locks {
      HolderMoves(s, item, stock);
    } else {
      var w :| 0 <= w < |s.workers| && !s.workers[w].pc.Finished?;
      FreeMoves(s, w, item, stock);
    }
  }

  // ----- Every schedule ends -----

  /** How many steps a request can still take. */
  function Left(wk: Worker): nat {
    var n := |wk.items|;
    match wk.pc
    case Idle => 2 * n + 4
    case Checking(p) => if p <= n then 2 * n + 3 - p else 0
    case Decrementing(p) => if p <= n then n + 2 - p else 0
    case Committed => 1
    case Finished(_) => 0
  }

  function AllLeft(workers: seq<Worker>): nat {
    if workers == [] then 0 else AllLeft(workers[..|workers| - 1]) + Left(workers[|workers| - 1])
  }

  lemma {:induction false} LeftUpdate(workers: seq<Worker>, w: nat, wk: Worker)
    requires w < |workers|
    ensures AllLeft(workers[w := wk]) + Left(workers[w]) == AllLeft(workers) + Left(wk)
  {
    var n := |workers| - 1;
    if w < n {
      LeftUpdate(workers[..n], w, wk);
      assert workers[w := wk][..n] == workers[..n][w := wk];
    } else {
      assert workers[w := wk][..n] == workers[..n];
    }
  }

  lemma {:induction false} NothingLeft(workers: seq<Worker>, w: nat)
    requires AllLeft(workers) == 0 && w < |workers|
    requires forall v :: 0 <= v < |workers| ==> Progress(workers[v])
    ensures workers[w].pc.Finished?
  {
    if w < |workers| - 1 { NothingLeft(workers[..|workers| - 1], w); }
  }

  lemma {:induction false} WorkerDescends(s: System, w: nat)
    requires w < |s.workers| && Progress(s.workers[w])
    ensures StepWorker(s, w) == s || Left(StepWorker(s, w).workers[w]) < Left(s.workers[w])
  {
    var wk := s.workers[w];
    match wk.pc
    case Idle =>
    case Checking(p) =>
    case Decrementing(p) =>
    case Committed =>
    case Finished(_) =>
  }

  /** A step that changes anything uses up one of the steps that are left. */
  lemma {:induction false} StepDescends(s: System, w: nat, initial: map<Item, int>)
    requires Inv(s, initial) && w < |s.workers|
    ensures StepWorker(s, w) == s || AllLeft(StepWorker(s, w).workers) < AllLeft(s.workers)
  {
    AboutWorker(s, w, initial);
    WorkerDescends(s, w);
    StepIsLocal(s, w);
    LeftUpdate(s.workers, w, StepWorker(s, w).workers[w]);
  }

  /** How many actions of a schedule changed anything. */
  function Effective(s: System, actions: seq<Action>): nat {
    if actions == [] then 0
    else
      var before, a := actions[..|actions| - 1], actions[|actions| - 1];
      Effective(s, before) + if Next(Run(s, before), a) == Run(s, before) then 0 else 1
  }

  /** Any requests, in any schedule, take no more effective steps than are left at the start, and all are answered once
      that many have been taken. */
  lemma {:induction false} ScheduleEnds(stock: map<Item, int>, workers: seq<Worker>, actions: seq<Action>)
    requires Fresh(workers) && OnlySteps(actions)
    ensures var s := Run(Initial(stock, workers), actions);
      && Effective(Initial(stock, workers), actions) + AllLeft(s.workers) <= AllLeft(workers)
      && (Effective(Initial(stock, workers), actions) >= AllLeft(workers) ==> Complete(s))
  {
    var s' := Run(Initial(stock, workers), actions);
    if actions != [] {
      var before, a := actions[..|actions| - 1], actions[|actions| - 1];
      assert a.Step?;
      ScheduleEnds(stock, workers, before);
      RunKeepsInv(stock, workers, before);
      var s := Run(Initial(stock, workers), before);
      if a.worker < |s.workers| { StepDescends(s, a.worker, stock); }
    }
    RunKeepsInv(stock, workers, actions);
    if AllLeft(s'.workers) == 0 {
      forall w | 0 <= w < |s'.workers| ensures s'.workers[w].pc.Finished? {
        NothingLeft(s'.workers, w);
      }
    }
  }

  lemma {:induction false} RushLeft(workers: seq<Worker>, item: Item)
    requires Fresh(workers) && forall w :: 0 <= w < |workers| ==> workers[w].items == [item]
    ensures AllLeft(workers) == 6 * |workers|
  {
    if workers != [] { RushLeft(workers[..|workers| - 1], item); }
  }

  predicate Answered(stock: map<Item, int>, workers: seq<Worker>, actions: seq<Action>) {
    Complete(Run(Initial(stock, workers), actions))
  }

  function LeftAfter(stock: map<Item, int>, workers: seq<Worker>, actions: seq<Action>): nat {
    AllLeft(Run(Initial(stock, workers), actions).workers)
  }

  lemma {:induction false} OneMoreStep(stock: map<Item, int>, workers: seq<Worker>, actions: seq<Action>, item: Item)
    returns (w: nat)
    requires Fresh(workers) && Rush(workers, item) && OnlySteps(actions) && !Answered(stock, workers, actions)
    ensures LeftAfter(stock, workers, actions + [Step(w)]) < LeftAfter(stock, workers, actions)
  {
    var s := Run(Initial(stock, workers), actions);
    NeverStuck(stock, workers, actions, item);
    w :| 0 <= w < |s.workers| && StepWorker(s, w).workers[w].pc != s.workers[w].pc;
    RunKeepsInv(stock, workers, actions);
    MoveDescends(s, w, stock);
    RunAppend(Initial(stock, workers), actions, Step(w));
  }

  lemma {:induction false} RunAppend(s: System, actions: seq<Action>, a: Action)
    ensures Run(s, actions + [a]) == Next(Run(s, actions), a)
  {
    assert (actions + [a])[..|actions|] == actions;
  }

  lemma {:induction false} MoveDescends(s: System, w: nat, initial: map<Item, int>)
    requires Inv(s, initial) && w < |s.workers| && StepWorker(s, w).workers[w].pc != s.workers[w].pc
    ensures AllLeft(Next(s, Step(w)).workers) < AllLeft(s.workers)
  {
    StepDescends(s, w, initial);
  }

  /** From every point of a flash sale the remaining requests can all be answered. */
  lemma {:induction false} SaleCanEnd(stock: map<Item, int>, workers: seq<Worker>, actions: seq<Action>, item: Item)
    returns (more: seq<Action>)
    requires Fresh(workers) && Rush(workers, item) && OnlySteps(actions)
    ensures OnlySteps(more) && Answered(stock, workers, actions + more)
    decreases LeftAfter(stock, workers, actions)
  {
    if Answered(stock, workers, actions) {
      more := [];
      assert actions + more == actions;
    } else {
      var w := OneMoreStep(stock, workers, actions, item);
      var rest := SaleCanEnd(stock, workers, actions + [Step(w)], item);
      more := [Step(w)] + rest;
      assert actions + more == actions + [Step(w)] + rest;
    }
  }

  /** After `6 * n` effective steps, and no schedule has more, the `n` requests of a flash sale are answered. */
  lemma {:induction false} SaleEnds(stock: map<Item, int>, workers: seq<Worker>, actions: seq<Action>, item: Item)
    requires Fresh(workers) && Rush(workers, item) && OnlySteps(actions)
    ensures Effective(Initial(stock, workers), actions) <= 6 * |workers|
    ensures Effective(Initial(stock, workers), actions) == 6 * |workers| ==> Complete(Run(Initial(stock, workers), actions))
  {
    RushLeft(workers, item);
    ScheduleEnds(stock, workers, actions);
  }
}
