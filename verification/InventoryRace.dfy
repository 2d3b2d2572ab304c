/** Concurrent reservations stepped at row-lock, check, decrement and commit granularity, with aborts and restarts. */
module InventoryRace {
  import opened Common
  import opened Stock

  type Key = string

  datatype Reply = Won | SoldOut | Failed | Replayed(entry: Entry) | Killed(committed: bool)

  /** A cached response: the reservation made by a worker, or OUT_OF_STOCK. */
  datatype Entry = ReservedEntry(worker: nat) | SoldOutEntry

  /** Where a request is: before the cache check, in the first or second pass of its transaction, between its commit
      and its cache write, or answered. */
  datatype Pc = Idle | Checking(done: nat) | Decrementing(done: nat) | Committed | Finished(reply: Reply)

  /** `session` is the identity map of the transaction: the values read under lock, then edited in memory. */
  datatype Worker = Worker(key: Key, items: seq<Item>, pc: Pc, session: map<Item, int>)

  /** A committed reservation; its random id is identified with the worker that made it. */
  datatype Row = Row(key: Key, items: seq<Item>, worker: nat)

  datatype System = System(
    stock: map<Item, int>,
    locks: map<Item, nat>,
    rows: seq<Row>,
    cache: map<Key, Entry>,
    workers: seq<Worker>)

  datatype Action = Step(worker: nat) | Abort(worker: nat) | Restart

  predicate KeyTaken(rows: seq<Row>, key: Key) {
    exists k :: 0 <= k < |rows| && rows[k].key == key
  }

  function Unlock(locks: map<Item, nat>, w: nat): map<Item, nat> {
    map item | item in locks && locks[item] != w :: locks[item]
  }

  function Update(s: System, w: nat, pc: Pc): System
    requires w < |s.workers|
  {
    s.(workers := s.workers[w := s.workers[w].(pc := pc)])
  }

  /** The transaction ends without writing: everything it did in memory is gone. */
  function Discard(s: System, w: nat, reply: Reply): System
    requires w < |s.workers|
  {
    s.(workers := s.workers[w := s.workers[w].(pc := Finished(reply), session := map[])], locks := Unlock(s.locks, w))
  }

  function Begin(s: System, w: nat): System
    requires w < |s.workers|
  {
    var wk := s.workers[w];
    if wk.items == [] then Update(s, w, Finished(Failed))
    else if wk.key in s.cache then Update(s, w, Finished(Replayed(s.cache[wk.key])))
    else Update(s, w, Checking(0))
  }

  /** The next item is locked and read into the session. */
  function LockNext(wk: Worker, value: int): Worker
    requires wk.pc.Checking? && wk.pc.done < |wk.items|
  {
    wk.(pc := Checking(wk.pc.done + 1), session := wk.session[wk.items[wk.pc.done] := value])
  }

  /** One unit of the next item is taken in memory. */
  function TakeNext(wk: Worker): Worker
    requires wk.pc.Decrementing? && wk.pc.done < |wk.items| && wk.items[wk.pc.done] in wk.session
  {
    var item := wk.items[wk.pc.done];
    wk.(pc := Decrementing(wk.pc.done + 1), session := wk.session[item := wk.session[item] - 1])
  }

  /** `SELECT ... FOR UPDATE` of the next item and the test of its stock; waits while another worker holds the row. */
  function CheckNext(s: System, w: nat): System
    requires w < |s.workers| && s.workers[w].pc.Checking? && s.workers[w].pc.done < |s.workers[w].items|
  {
    var wk := s.workers[w];
    var item := wk.items[wk.pc.done];
    if item in s.stock && item in s.locks && s.locks[item] != w then s
    else if item in s.stock && (if item in wk.session then wk.session[item] else s.stock[item]) > 0 then
      var value := if item in wk.session then wk.session[item] else s.stock[item];
      s.(locks := s.locks[item := w], workers := s.workers[w := LockNext(wk, value)])
    else
      Discard(s, w, SoldOut).(cache := s.cache[wk.key := SoldOutEntry])
  }

  function DecrementNext(s: System, w: nat): System
    requires w < |s.workers| && s.workers[w].pc.Decrementing? && s.workers[w].pc.done < |s.workers[w].items|
  {
    var wk := s.workers[w];
    if wk.items[wk.pc.done] in wk.session then s.(workers := s.workers[w := TakeNext(wk)]) else s
  }

  /** The flush writes absolute values; a taken key fails it and rolls everything back. */
  function CommitAll(s: System, w: nat): System
    requires w < |s.workers|
  {
    var wk := s.workers[w];
    if KeyTaken(s.rows, wk.key) then Discard(s, w, Failed)
    else
      s.(stock := s.stock + wk.session,
         rows := s.rows + [Row(wk.key, wk.items, w)],
         locks := Unlock(s.locks, w),
         workers := s.workers[w := wk.(pc := Committed, session := map[])])
  }

  function StepWorker(s: System, w: nat): (r: System)
    requires w < |s.workers|
    ensures |r.workers| == |s.workers|
  {
    var wk := s.workers[w];
    match wk.pc
    case Idle => Begin(s, w)
    case Checking(p) => if p < |wk.items| then CheckNext(s, w) else Update(s, w, Decrementing(0))
    case Decrementing(p) => if p < |wk.items| then DecrementNext(s, w) else CommitAll(s, w)
    case Committed => Update(s, w, Finished(Won)).(cache := s.cache[wk.key := ReservedEntry(w)])
    case Finished(_) => s
  }

  function Kill(wk: Worker): Worker {
    if wk.pc.Finished? then wk
    else wk.(pc := Finished(Killed(wk.pc.Committed?)), session := map[])
  }

  function Next(s: System, a: Action): System {
    match a
    case Step(w) => if w < |s.workers| then StepWorker(s, w) else s
    case Abort(w) =>
      if w < |s.workers| && (s.workers[w].pc.Checking? || s.workers[w].pc.Decrementing?) then Discard(s, w, Failed) else s
    case Restart => s.(locks := map[], cache := map[], workers := Map(Kill, s.workers))
  }

  /** What each step answers and leaves in the cache: the cache check replays or lets in, a check that finds an item missing
      answers OUT_OF_STOCK and caches it, a committed request caches its reservation. */
  lemma {:induction false} StepSays(s: System, w: nat)
    requires w < |s.workers|
    ensures var s', wk, pc' := StepWorker(s, w), s.workers[w], StepWorker(s, w).workers[w].pc;
      match wk.pc
      case Idle =>
        && s'.cache == s.cache && s'.rows == s.rows && s'.stock == s.stock && s'.locks == s.locks
        && pc' == (if wk.items == [] then Finished(Failed)
                   else if wk.key in s.cache then Finished(Replayed(s.cache[wk.key]))
                   else Checking(0))
      case Checking(_) =>
        && s'.rows == s.rows && s'.stock == s.stock
        && (pc' == Finished(SoldOut) ==> s'.cache == s.cache[wk.key := SoldOutEntry])
        && (pc' != Finished(SoldOut) ==> s'.cache == s.cache)
      case Decrementing(_) => s'.cache == s.cache
      case Committed => pc' == Finished(Won) && s'.cache == s.cache[wk.key := ReservedEntry(w)] && s'.rows == s.rows
      case Finished(_) => s' == s
  {
  }

  /** A restart forgets the cache, the locks and every request under way, and nothing else; an abort the request alone. */
  lemma {:induction false} WhatIsForgotten(s: System, w: nat)
    ensures var s' := Next(s, Restart);
      s'.cache == map[] && s'.locks == map[] && s'.rows == s.rows && s'.stock == s.stock
      && forall v :: 0 <= v < |s'.workers| ==> s'.workers[v].pc.Finished?
    ensures var s' := Next(s, Abort(w));
      s'.cache == s.cache && s'.rows == s.rows && s'.stock == s.stock
      && (w < |s.workers| && (s.workers[w].pc.Checking? || s.workers[w].pc.Decrementing?) ==>
            s'.workers[w].pc == Finished(Failed) && s'.workers[w].session == map[])
  {
  }

  function Run(s: System, actions: seq<Action>): System {
    if actions == [] then s else Next(Run(s, actions[..|actions| - 1]), actions[|actions| - 1])
  }

  predicate Fresh(workers: seq<Worker>) {
    forall w :: 0 <= w < |workers| ==> workers[w].pc.Idle? && workers[w].session == map[]
  }

  function Initial(stock: map<Item, int>, workers: seq<Worker>): System {
    System(stock, map[], [], map[], workers)
  }

  // ----- Observations -----

  function UnitsSold(rows: seq<Row>, item: Item): nat {
    if rows == [] then 0 else UnitsSold(rows[..|rows| - 1], item) + Units(rows[|rows| - 1].items, item)
  }

  predicate HasCommitted(wk: Worker) {
    wk.pc.Committed? || wk.pc == Finished(Won) || wk.pc == Finished(Killed(true))
  }

  function CommittedCount(workers: seq<Worker>): nat {
    if workers == [] then 0
    else CommittedCount(workers[..|workers| - 1]) + if HasCommitted(workers[|workers| - 1]) then 1 else 0
  }

  // ----- The invariant -----

  /** The items whose rows a worker has locked. */
  function Locked(wk: Worker): seq<Item> {
    match wk.pc
    case Checking(p) => if p <= |wk.items| then wk.items[..p] else wk.items
    case Decrementing(_) => wk.items
    case _ => []
  }

  /** How much of an item the worker has already taken in memory. */
  function TakenSoFar(wk: Worker, item: Item): nat {
    if wk.pc.Decrementing? && wk.pc.done <= |wk.items| then Units(wk.items[..wk.pc.done], item) else 0
  }

  predicate Progress(wk: Worker) {
    && (wk.pc.Checking? || wk.pc.Decrementing? ==> wk.pc.done <= |wk.items|)
    && (forall item :: item in wk.session ==> item in Locked(wk))
  }

  /** A worker owns the rows it has read: nobody else changes them, so its memory is current. */
  predicate Owns(wk: Worker, w: nat, stock: map<Item, int>, locks: map<Item, nat>) {
    forall item :: item in Locked(wk) ==>
      && item in locks && locks[item] == w && item in stock && item in wk.session
      && stock[item] > 0 && wk.session[item] == stock[item] - TakenSoFar(wk, item)
  }

  /** Every worker's memory is current, and every lock has an owner that knows of it. */
  ghost predicate WorkersOk(workers: seq<Worker>, stock: map<Item, int>, locks: map<Item, nat>) {
    && (forall w :: 0 <= w < |workers| ==> Progress(workers[w]) && Owns(workers[w], w, stock, locks))
    && (forall item :: item in locks ==> locks[item] < |workers| && item in Locked(workers[locks[item]]))
  }

  /** The lock table changes only where worker `w` is concerned. */
  predicate LocksMove(before: map<Item, nat>, after: map<Item, nat>, w: nat, wk: Worker) {
    && (forall item :: item in before && before[item] != w ==> item in after && after[item] == before[item])
    && (forall item :: item in after ==>
          if after[item] == w then item in Locked(wk) else item in before && before[item] == after[item])
  }

  ghost predicate StockOk(stock: map<Item, int>, rows: seq<Row>, initial: map<Item, int>) {
    && stock.Keys == initial.Keys
    && forall item :: item in initial ==> stock[item] == initial[item] - UnitsSold(rows, item)
  }

  predicate RowOk(r: Row, workers: seq<Worker>) {
    && r.worker < |workers| && HasCommitted(workers[r.worker])
    && r.key == workers[r.worker].key && r.items == workers[r.worker].items
  }

  ghost predicate RowsOk(rows: seq<Row>, workers: seq<Worker>) {
    && (forall j, k :: 0 <= j < k < |rows| ==> rows[j].key != rows[k].key)
    && (forall k :: 0 <= k < |rows| ==> RowOk(rows[k], workers))
    && CommittedCount(workers) == |rows|
  }

  predicate RowOf(rows: seq<Row>, key: Key, worker: nat) {
    exists k :: 0 <= k < |rows| && rows[k].key == key && rows[k].worker == worker
  }

  /** A RESERVED cache entry names the committed reservation with that key. */
  ghost predicate CacheOk(cache: map<Key, Entry>, rows: seq<Row>) {
    forall key :: key in cache && cache[key].ReservedEntry? ==> RowOf(rows, key, cache[key].worker)
  }

  /** A request that was told RESERVED, or would be, has its reservation; so has one that was replayed a RESERVED. */
  predicate Backed(wk: Worker, w: nat, rows: seq<Row>) {
    && (HasCommitted(wk) ==> RowOf(rows, wk.key, w))
    && (wk.pc.Finished? && wk.pc.reply.Replayed? && wk.pc.reply.entry.ReservedEntry? ==>
          RowOf(rows, wk.key, wk.pc.reply.entry.worker))
  }

  ghost predicate AnswersOk(workers: seq<Worker>, rows: seq<Row>) {
    forall w :: 0 <= w < |workers| ==> Backed(workers[w], w, rows)
  }

  predicate Exhausted(stock: map<Item, int>, items: seq<Item>) {
    exists k :: 0 <= k < |items| && (items[k] !in stock || stock[items[k]] <= 0)
  }

  /** Nobody was turned away while everything asked for was in stock. */
  ghost predicate RejectionsOk(workers: seq<Worker>, stock: map<Item, int>) {
    forall w :: 0 <= w < |workers| && workers[w].pc == Finished(SoldOut) ==> Exhausted(stock, workers[w].items)
  }

  ghost predicate Inv(s: System, initial: map<Item, int>) {
    && WorkersOk(s.workers, s.stock, s.locks)
    && StockOk(s.stock, s.rows, initial)
    && RowsOk(s.rows, s.workers)
    && CacheOk(s.cache, s.rows)
    && AnswersOk(s.workers, s.rows)
    && RejectionsOk(s.workers, s.stock)
  }

  // ----- Counting and summing -----

  lemma {:induction false} SoldAppend(rows: seq<Row>, r: Row, item: Item)
    ensures UnitsSold(rows + [r], item) == UnitsSold(rows, item) + Units(r.items, item)
  {
    assert (rows + [r])[..|rows|] == rows;
  }

  lemma {:induction false} CountUpdate(workers: seq<Worker>, w: nat, wk: Worker)
    requires w < |workers|
    ensures CommittedCount(workers[w := wk]) + (if HasCommitted(workers[w]) then 1 else 0)
      == CommittedCount(workers) + if HasCommitted(wk) then 1 else 0
  {
    var n := |workers| - 1;
    if w < n {
      CountUpdate(workers[..n], w, wk);
      assert workers[w := wk][..n] == workers[..n][w := wk];
    } else {
      assert workers[w := wk][..n] == workers[..n];
    }
  }

  lemma {:induction false} CountSame(a: seq<Worker>, b: seq<Worker>)
    requires |a| == |b| && forall w :: 0 <= w < |a| ==> HasCommitted(a[w]) == HasCommitted(b[w])
    ensures CommittedCount(a) == CommittedCount(b)
  {
    if a != [] { CountSame(a[..|a| - 1], b[..|b| - 1]); }
  }

  lemma {:induction false} CountNone(workers: seq<Worker>)
    requires Fresh(workers)
    ensures CommittedCount(workers) == 0
  {
    if workers != [] { CountNone(workers[..|workers| - 1]); }
  }

  // ----- One worker moves, nothing is written -----

  lemma {:induction false} OtherOwns(wk: Worker, v: nat, stock: map<Item, int>, locks: map<Item, nat>,
                                     locks': map<Item, nat>, w: nat, mover: Worker)
    requires v != w && Owns(wk, v, stock, locks) && LocksMove(locks, locks', w, mover)
    ensures Owns(wk, v, stock, locks')
  {
  }

  lemma {:induction false} LocksOwned(workers: seq<Worker>, stock: map<Item, int>, locks: map<Item, nat>,
                                      locks': map<Item, nat>, w: nat, wk: Worker, item: Item)
    requires WorkersOk(workers, stock, locks) && w < |workers| && LocksMove(locks, locks', w, wk) && item in locks'
    ensures locks'[item] < |workers| && item in Locked(workers[w := wk][locks'[item]])
  {
    if locks'[item] != w { assert item in locks && locks[item] == locks'[item]; }
  }

  /** A worker that changes only its own locks concerns nobody else. */
  lemma {:induction false} QuietKeepsWorkers(workers: seq<Worker>, stock: map<Item, int>, locks: map<Item, nat>, w: nat,
                                             wk: Worker, locks': map<Item, nat>)
    requires WorkersOk(workers, stock, locks) && w < |workers|
    requires Progress(wk) && Owns(wk, w, stock, locks') && LocksMove(locks, locks', w, wk)
    ensures WorkersOk(workers[w := wk], stock, locks')
  {
    var workers' := workers[w := wk];
    forall v | 0 <= v < |workers'| ensures Progress(workers'[v]) && Owns(workers'[v], v, stock, locks') {
      if v != w {
        assert Progress(workers[v]) && Owns(workers[v], v, stock, locks);
        OtherOwns(workers[v], v, stock, locks, locks', w, wk);
      }
    }
    forall item | item in locks' ensures locks'[item] < |workers'| && item in Locked(workers'[locks'[item]]) {
      LocksOwned(workers, stock, locks, locks', w, wk, item);
    }
  }

  lemma {:induction false} QuietKeepsRows(workers: seq<Worker>, rows: seq<Row>, w: nat, wk: Worker)
    requires RowsOk(rows, workers) && w < |workers|
    requires wk.key == workers[w].key && wk.items == workers[w].items && HasCommitted(wk) == HasCommitted(workers[w])
    ensures RowsOk(rows, workers[w := wk])
  {
    CountUpdate(workers, w, wk);
    forall k | 0 <= k < |rows| ensures RowOk(rows[k], workers[w := wk]) {
      assert RowOk(rows[k], workers);
    }
  }

  lemma {:induction false} QuietKeepsAnswers(workers: seq<Worker>, stock: map<Item, int>, rows: seq<Row>, w: nat, wk: Worker)
    requires AnswersOk(workers, rows) && RejectionsOk(workers, stock) && w < |workers|
    requires Backed(wk, w, rows) && (wk.pc == Finished(SoldOut) ==> Exhausted(stock, wk.items))
    ensures AnswersOk(workers[w := wk], rows) && RejectionsOk(workers[w := wk], stock)
  {
    var workers' := workers[w := wk];
    forall v | 0 <= v < |workers'| ensures Backed(workers'[v], v, rows) {
      if v != w { assert Backed(workers[v], v, rows); }
    }
  }

  /** Worker `w` becomes `wk`; neither the stock nor the reservations change. */
  function Moved(s: System, w: nat, wk: Worker, locks: map<Item, nat>, cache: map<Key, Entry>): System
    requires w < |s.workers|
  {
    s.(workers := s.workers[w := wk], locks := locks, cache := cache)
  }

  lemma {:induction false} QuietKeepsInv(s: System, w: nat, wk: Worker, locks: map<Item, nat>, cache: map<Key, Entry>,
                                         initial: map<Item, int>)
    requires Inv(s, initial) && w < |s.workers|
    requires wk.key == s.workers[w].key && wk.items == s.workers[w].items && HasCommitted(wk) == HasCommitted(s.workers[w])
    requires Backed(wk, w, s.rows) && (wk.pc == Finished(SoldOut) ==> Exhausted(s.stock, wk.items))
    requires Progress(wk) && Owns(wk, w, s.stock, locks) && LocksMove(s.locks, locks, w, wk)
    requires CacheOk(cache, s.rows)
    ensures Inv(Moved(s, w, wk, locks, cache), initial)
  {
    QuietKeepsWorkers(s.workers, s.stock, s.locks, w, wk, locks);
    QuietKeepsRows(s.workers, s.rows, w, wk);
    QuietKeepsAnswers(s.workers, s.stock, s.rows, w, wk);
  }

  /** A worker goes on with the same rows locked. */
  lemma {:induction false} SameLocks(workers: seq<Worker>, stock: map<Item, int>, locks: map<Item, nat>, w: nat, wk: Worker)
    requires WorkersOk(workers, stock, locks) && w < |workers| && Locked(wk) == Locked(workers[w])
    ensures LocksMove(locks, locks, w, wk)
  {
  }

  /** What the invariant says about one worker. */
  lemma {:induction false} AboutWorker(s: System, w: nat, initial: map<Item, int>)
    requires Inv(s, initial) && w < |s.workers|
    ensures Progress(s.workers[w]) && Owns(s.workers[w], w, s.stock, s.locks) && Backed(s.workers[w], w, s.rows)
  {
  }

  // ----- The end of a transaction without writing -----

  function Gone(wk: Worker, reply: Reply): Worker {
    wk.(pc := Finished(reply), session := map[])
  }

  lemma {:induction false} GoneIsQuiet(s: System, w: nat, reply: Reply, initial: map<Item, int>)
    requires Inv(s, initial) && w < |s.workers|
    ensures var wk := Gone(s.workers[w], reply);
      Progress(wk) && Owns(wk, w, s.stock, Unlock(s.locks, w)) && LocksMove(s.locks, Unlock(s.locks, w), w, wk)
  {
  }

  lemma {:induction false} FailKeepsInv(s: System, w: nat, initial: map<Item, int>)
    requires Inv(s, initial) && w < |s.workers| && !HasCommitted(s.workers[w])
    ensures Inv(Discard(s, w, Failed), initial)
  {
    GoneIsQuiet(s, w, Failed, initial);
    QuietKeepsInv(s, w, Gone(s.workers[w], Failed), Unlock(s.locks, w), s.cache, initial);
    assert Discard(s, w, Failed) == Moved(s, w, Gone(s.workers[w], Failed), Unlock(s.locks, w), s.cache);
  }

  lemma {:induction false} SoldOutKeepsInv(s: System, w: nat, initial: map<Item, int>)
    requires Inv(s, initial) && w < |s.workers| && !HasCommitted(s.workers[w]) && Exhausted(s.stock, s.workers[w].items)
    ensures Inv(Discard(s, w, SoldOut).(cache := s.cache[s.workers[w].key := SoldOutEntry]), initial)
  {
    var wk, cache := Gone(s.workers[w], SoldOut), s.cache[s.workers[w].key := SoldOutEntry];
    GoneIsQuiet(s, w, SoldOut, initial);
    QuietKeepsInv(s, w, wk, Unlock(s.locks, w), cache, initial);
    assert Discard(s, w, SoldOut).(cache := cache) == Moved(s, w, wk, Unlock(s.locks, w), cache);
  }

  // ----- The first pass -----

  lemma {:induction false} LockNextOwns(wk: Worker, w: nat, stock: map<Item, int>, locks: map<Item, nat>)
    requires wk.pc.Checking? && wk.pc.done < |wk.items| && Progress(wk) && Owns(wk, w, stock, locks)
    requires wk.items[wk.pc.done] in stock && stock[wk.items[wk.pc.done]] > 0
    ensures var item := wk.items[wk.pc.done];
      var wk' := LockNext(wk, stock[item]);
      Locked(wk') == Locked(wk) + [item] && Progress(wk') && Owns(wk', w, stock, locks[item := w])
  {
    var item := wk.items[wk.pc.done];
    var wk' := LockNext(wk, stock[item]);
    assert Locked(wk') == Locked(wk) + [item];
    forall i | i in Locked(wk')
      ensures i in locks[item := w] && locks[item := w][i] == w && i in stock && i in wk'.session
      ensures stock[i] > 0 && wk'.session[i] == stock[i] - TakenSoFar(wk', i)
    {
      if i != item { assert i in Locked(wk); }
    }
  }

  lemma {:induction false} LockNextMoves(wk: Worker, w: nat, wk': Worker, locks: map<Item, nat>, item: Item)
    requires Locked(wk') == Locked(wk) + [item]
    requires forall i :: i in locks && locks[i] == w ==> i in Locked(wk)
    requires item in locks ==> locks[item] == w
    ensures LocksMove(locks, locks[item := w], w, wk')
  {
  }

  /** What a worker has in memory is what the table holds. */
  lemma {:induction false} CheckingIsCurrent(wk: Worker, w: nat, stock: map<Item, int>, locks: map<Item, nat>, item: Item)
    requires wk.pc.Checking? && Progress(wk) && Owns(wk, w, stock, locks) && item in stock
    ensures (if item in wk.session then wk.session[item] else stock[item]) == stock[item]
  {
  }

  lemma {:induction false} LockKeepsInv(s: System, w: nat, item: Item, initial: map<Item, int>)
    requires Inv(s, initial) && w < |s.workers|
    requires s.workers[w].pc.Checking? && s.workers[w].pc.done < |s.workers[w].items|
    requires item == s.workers[w].items[s.workers[w].pc.done] && item in s.stock && s.stock[item] > 0
    requires item in s.locks ==> s.locks[item] == w
    ensures Inv(Moved(s, w, LockNext(s.workers[w], s.stock[item]), s.locks[item := w], s.cache), initial)
  {
    var wk := s.workers[w];
    AboutWorker(s, w, initial);
    LockNextOwns(wk, w, s.stock, s.locks);
    LockNextMoves(wk, w, LockNext(wk, s.stock[item]), s.locks, item);
    QuietKeepsInv(s, w, LockNext(wk, s.stock[item]), s.locks[item := w], s.cache, initial);
  }

  lemma {:induction false} CheckKeepsInv(s: System, w: nat, initial: map<Item, int>)
    requires Inv(s, initial) && w < |s.workers|
    requires s.workers[w].pc.Checking? && s.workers[w].pc.done < |s.workers[w].items|
    ensures Inv(CheckNext(s, w), initial)
  {
    var wk := s.workers[w];
    var item := wk.items[wk.pc.done];
    AboutWorker(s, w, initial);
    if item in s.stock { CheckingIsCurrent(wk, w, s.stock, s.locks, item); }
    if item in s.stock && item in s.locks && s.locks[item] != w {
      assert CheckNext(s, w) == s;
    } else if item in s.stock && s.stock[item] > 0 {
      LockKeepsInv(s, w, item, initial);
      assert CheckNext(s, w) == Moved(s, w, LockNext(wk, s.stock[item]), s.locks[item := w], s.cache);
    } else {
      assert Exhausted(s.stock, wk.items);
      SoldOutKeepsInv(s, w, initial);
    }
  }

  // ----- The second pass -----

  lemma {:induction false} TakeNextOwns(wk: Worker, w: nat, stock: map<Item, int>, locks: map<Item, nat>)
    requires wk.pc.Decrementing? && wk.pc.done < |wk.items| && Progress(wk) && Owns(wk, w, stock, locks)
    ensures wk.items[wk.pc.done] in wk.session && Progress(TakeNext(wk)) && Owns(TakeNext(wk), w, stock, locks)
  {
    assert wk.items[wk.pc.done] in Locked(wk);
    forall i | i in Locked(TakeNext(wk)) ensures TakeNext(wk).session[i] == stock[i] - TakenSoFar(TakeNext(wk), i) {
      UnitsAppend(wk.items, wk.pc.done, i);
    }
  }

  lemma {:induction false} DecrementKeepsInv(s: System, w: nat, initial: map<Item, int>)
    requires Inv(s, initial) && w < |s.workers|
    requires s.workers[w].pc.Decrementing? && s.workers[w].pc.done < |s.workers[w].items|
    ensures Inv(DecrementNext(s, w), initial)
  {
    AboutWorker(s, w, initial);
    TakeNextOwns(s.workers[w], w, s.stock, s.locks);
    TakeKeepsInv(s, w, TakeNext(s.workers[w]), initial);
  }

  lemma {:induction false} TakeKeepsInv(s: System, w: nat, wk: Worker, initial: map<Item, int>)
    requires Inv(s, initial) && w < |s.workers| && s.workers[w].pc.Decrementing?
    requires wk == s.workers[w].(pc := wk.pc, session := wk.session) && wk.pc.Decrementing?
    requires Progress(wk) && Owns(wk, w, s.stock, s.locks)
    ensures Inv(s.(workers := s.workers[w := wk]), initial)
  {
    SameLocks(s.workers, s.stock, s.locks, w, wk);
    QuietKeepsInv(s, w, wk, s.locks, s.cache, initial);
    assert s.(workers := s.workers[w := wk]) == Moved(s, w, wk, s.locks, s.cache);
  }

  // ----- The commit -----

  /** Writing back absolute values subtracts exactly the listed units, because the rows stayed locked. */
  lemma {:induction false} WriteBack(wk: Worker, w: nat, stock: map<Item, int>, locks: map<Item, nat>)
    requires wk.pc == Decrementing(|wk.items|) && Progress(wk) && Owns(wk, w, stock, locks)
    ensures stock + wk.session == Subtract(stock, wk.items) && Available(stock, wk.items)
  {
    assert wk.items[..|wk.items|] == wk.items;
    assert forall k :: 0 <= k < |wk.items| ==> wk.items[k] in Locked(wk);
    forall item | item in stock ensures (stock + wk.session)[item] == stock[item] - Units(wk.items, item) {
      if item !in wk.session { UnitsNone(wk.items, item); }
    }
  }

  function AfterCommit(wk: Worker): Worker {
    wk.(pc := Committed, session := map[])
  }

  lemma {:induction false} CommitLeavesOthers(workers: seq<Worker>, stock: map<Item, int>, locks: map<Item, nat>, w: nat, v: nat)
    requires WorkersOk(workers, stock, locks) && w < |workers| && v < |workers| && v != w
    ensures Progress(workers[v]) && Owns(workers[v], v, stock + workers[w].session, Unlock(locks, w))
  {
    assert Progress(workers[w]) && Owns(workers[w], w, stock, locks);
    assert Progress(workers[v]) && Owns(workers[v], v, stock, locks);
  }

  lemma {:induction false} CommitKeepsWorkers(workers: seq<Worker>, stock: map<Item, int>, locks: map<Item, nat>, w: nat)
    requires WorkersOk(workers, stock, locks) && w < |workers|
    ensures WorkersOk(workers[w := AfterCommit(workers[w])], stock + workers[w].session, Unlock(locks, w))
  {
    var workers', stock', locks' := workers[w := AfterCommit(workers[w])], stock + workers[w].session, Unlock(locks, w);
    forall v | 0 <= v < |workers'| ensures Progress(workers'[v]) && Owns(workers'[v], v, stock', locks') {
      if v != w { CommitLeavesOthers(workers, stock, locks, w, v); }
    }
    forall item | item in locks' ensures locks'[item] < |workers'| && item in Locked(workers'[locks'[item]]) {
      assert item in locks && locks[item] == locks'[item];
    }
  }

  lemma {:induction false} ExhaustedStays(stock: map<Item, int>, sold: seq<Item>, items: seq<Item>)
    requires Exhausted(stock, items)
    ensures Exhausted(Subtract(stock, sold), items)
  {
    var k :| 0 <= k < |items| && (items[k] !in stock || stock[items[k]] <= 0);
    assert items[k] !in Subtract(stock, sold) || Subtract(stock, sold)[items[k]] <= 0;
  }

  lemma {:induction false} RowOfGrows(rows: seq<Row>, r: Row, key: Key, w: nat)
    requires RowOf(rows, key, w)
    ensures RowOf(rows + [r], key, w)
  {
    var k :| 0 <= k < |rows| && rows[k].key == key && rows[k].worker == w;
    assert (rows + [r])[k] == rows[k];
  }

  lemma {:induction false} CommitKeepsRows(workers: seq<Worker>, rows: seq<Row>, w: nat)
    requires RowsOk(rows, workers) && w < |workers| && !HasCommitted(workers[w]) && !KeyTaken(rows, workers[w].key)
    ensures RowsOk(rows + [Row(workers[w].key, workers[w].items, w)], workers[w := AfterCommit(workers[w])])
  {
    var workers', rows' := workers[w := AfterCommit(workers[w])], rows + [Row(workers[w].key, workers[w].items, w)];
    CountUpdate(workers, w, AfterCommit(workers[w]));
    forall k | 0 <= k < |rows'| ensures RowOk(rows'[k], workers') {
      if k < |rows| { assert RowOk(rows[k], workers); }
    }
  }

  lemma {:induction false} CommitKeepsAnswers(workers: seq<Worker>, rows: seq<Row>, cache: map<Key, Entry>, w: nat)
    requires AnswersOk(workers, rows) && CacheOk(cache, rows) && w < |workers|
    ensures var rows' := rows + [Row(workers[w].key, workers[w].items, w)];
      AnswersOk(workers[w := AfterCommit(workers[w])], rows') && CacheOk(cache, rows')
  {
    var r := Row(workers[w].key, workers[w].items, w);
    assert (rows + [r])[|rows|] == r;
    forall key | key in cache && cache[key].ReservedEntry? ensures RowOf(rows + [r], key, cache[key].worker) {
      RowOfGrows(rows, r, key, cache[key].worker);
    }
    var workers' := workers[w := AfterCommit(workers[w])];
    forall v | 0 <= v < |workers'| ensures Backed(workers'[v], v, rows + [r]) {
      if v != w {
        assert Backed(workers[v], v, rows);
        var key, reply := workers[v].key, workers[v].pc;
        if HasCommitted(workers[v]) { RowOfGrows(rows, r, key, v); }
        if reply.Finished? && reply.reply.Replayed? && reply.reply.entry.ReservedEntry? {
          RowOfGrows(rows, r, key, reply.reply.entry.worker);
        }
      }
    }
  }

  lemma {:induction false} CommitKeepsStock(stock: map<Item, int>, rows: seq<Row>, r: Row, initial: map<Item, int>)
    requires StockOk(stock, rows, initial)
    ensures StockOk(Subtract(stock, r.items), rows + [r], initial)
  {
    forall item | item in initial ensures Subtract(stock, r.items)[item] == initial[item] - UnitsSold(rows + [r], item) {
      SoldAppend(rows, r, item);
    }
  }

  lemma {:induction false} CommitKeepsRejections(workers: seq<Worker>, stock: map<Item, int>, w: nat)
    requires RejectionsOk(workers, stock) && w < |workers|
    ensures RejectionsOk(workers[w := AfterCommit(workers[w])], Subtract(stock, workers[w].items))
  {
    var workers' := workers[w := AfterCommit(workers[w])];
    forall v | 0 <= v < |workers'| && workers'[v].pc == Finished(SoldOut)
      ensures Exhausted(Subtract(stock, workers[w].items), workers'[v].items)
    {
      ExhaustedStays(stock, workers[w].items, workers[v].items);
    }
  }

  lemma {:induction false} CommitKeepsInv(s: System, w: nat, initial: map<Item, int>)
    requires Inv(s, initial) && w < |s.workers| && s.workers[w].pc == Decrementing(|s.workers[w].items|)
    ensures Inv(CommitAll(s, w), initial)
  {
    var wk := s.workers[w];
    if KeyTaken(s.rows, wk.key) {
      FailKeepsInv(s, w, initial);
    } else {
      AboutWorker(s, w, initial);
      WriteBack(wk, w, s.stock, s.locks);
      CommitKeepsWorkers(s.workers, s.stock, s.locks, w);
      CommitKeepsRows(s.workers, s.rows, w);
      CommitKeepsAnswers(s.workers, s.rows, s.cache, w);
      CommitKeepsStock(s.stock, s.rows, Row(wk.key, wk.items, w), initial);
      CommitKeepsRejections(s.workers, s.stock, w);
    }
  }

  // ----- The other steps -----

  lemma {:induction false} FillKeepsInv(s: System, w: nat, initial: map<Item, int>)
    requires Inv(s, initial) && w < |s.workers| && s.workers[w].pc.Committed?
    ensures Inv(StepWorker(s, w), initial)
  {
    var wk' := s.workers[w].(pc := Finished(Won));
    var cache' := s.cache[s.workers[w].key := ReservedEntry(w)];
    AboutWorker(s, w, initial);
    SameLocks(s.workers, s.stock, s.locks, w, wk');
    QuietKeepsInv(s, w, wk', s.locks, cache', initial);
    assert StepWorker(s, w) == Moved(s, w, wk', s.locks, cache');
  }

  lemma {:induction false} RestartKeepsWorkers(workers: seq<Worker>, stock: map<Item, int>, locks: map<Item, nat>)
    requires WorkersOk(workers, stock, locks)
    ensures WorkersOk(Map(Kill, workers), stock, map[])
  {
    forall w | 0 <= w < |workers| ensures Progress(Kill(workers[w])) && Owns(Kill(workers[w]), w, stock, map[]) {
      assert Progress(workers[w]);
    }
  }

  lemma {:induction false} RestartKeepsRows(workers: seq<Worker>, rows: seq<Row>)
    requires RowsOk(rows, workers)
    ensures RowsOk(rows, Map(Kill, workers))
  {
    CountSame(workers, Map(Kill, workers));
    forall k | 0 <= k < |rows| ensures RowOk(rows[k], Map(Kill, workers)) {
      assert RowOk(rows[k], workers);
    }
  }

  lemma {:induction false} RestartKeepsAnswers(workers: seq<Worker>, rows: seq<Row>, stock: map<Item, int>)
    requires AnswersOk(workers, rows) && RejectionsOk(workers, stock)
    ensures AnswersOk(Map(Kill, workers), rows) && RejectionsOk(Map(Kill, workers), stock)
  {
    forall w | 0 <= w < |workers| ensures Backed(Kill(workers[w]), w, rows) {
      assert Backed(workers[w], w, rows);
    }
  }

  lemma {:induction false} RestartKeepsInv(s: System, initial: map<Item, int>)
    requires Inv(s, initial)
    ensures Inv(Next(s, Restart), initial)
  {
    RestartKeepsWorkers(s.workers, s.stock, s.locks);
    RestartKeepsRows(s.workers, s.rows);
    RestartKeepsAnswers(s.workers, s.rows, s.stock);
  }

  predicate Turn(wk: Worker, pc: Pc) {
    || (wk.pc.Idle? && (pc == Checking(0) || (pc.Finished? && (pc.reply == Failed || pc.reply.Replayed?))))
    || (wk.pc == Checking(|wk.items|) && pc == Decrementing(0))
  }

  lemma {:induction false} TurnOwns(wk: Worker, w: nat, pc: Pc, stock: map<Item, int>, locks: map<Item, nat>)
    requires Turn(wk, pc) && Progress(wk) && Owns(wk, w, stock, locks)
    ensures var wk' := wk.(pc := pc); Locked(wk') == Locked(wk) && Progress(wk') && Owns(wk', w, stock, locks)
  {
    assert wk.items[..|wk.items|] == wk.items && wk.items[..0] == [];
  }

  /** A worker passes or is answered by the cache check, or turns from its first pass to its second. */
  lemma {:induction false} TurnKeepsInv(s: System, w: nat, pc: Pc, initial: map<Item, int>)
    requires Inv(s, initial) && w < |s.workers| && Turn(s.workers[w], pc) && Backed(s.workers[w].(pc := pc), w, s.rows)
    ensures Inv(Update(s, w, pc), initial)
  {
    var wk := s.workers[w];
    AboutWorker(s, w, initial);
    TurnOwns(wk, w, pc, s.stock, s.locks);
    SameLocks(s.workers, s.stock, s.locks, w, wk.(pc := pc));
    QuietKeepsInv(s, w, wk.(pc := pc), s.locks, s.cache, initial);
    assert Update(s, w, pc) == Moved(s, w, wk.(pc := pc), s.locks, s.cache);
  }

  lemma {:induction false} BeginKeepsInv(s: System, w: nat, initial: map<Item, int>)
    requires Inv(s, initial) && w < |s.workers| && s.workers[w].pc.Idle?
    ensures Inv(Begin(s, w), initial)
  {
    var wk := s.workers[w];
    if wk.items == [] {
      TurnKeepsInv(s, w, Finished(Failed), initial);
    } else if wk.key in s.cache {
      TurnKeepsInv(s, w, Finished(Replayed(s.cache[wk.key])), initial);
    } else {
      TurnKeepsInv(s, w, Checking(0), initial);
    }
  }

  lemma {:induction false} StepKeepsInv(s: System, w: nat, initial: map<Item, int>)
    requires Inv(s, initial) && w < |s.workers|
    ensures Inv(StepWorker(s, w), initial)
  {
    var wk := s.workers[w];
    AboutWorker(s, w, initial);
    match wk.pc
    case Idle => BeginKeepsInv(s, w, initial);
    case Checking(p) =>
      if p < |wk.items| {
        CheckKeepsInv(s, w, initial);
      } else {
        TurnKeepsInv(s, w, Decrementing(0), initial);
      }
    case Decrementing(p) => if p < |wk.items| { DecrementKeepsInv(s, w, initial); } else { CommitKeepsInv(s, w, initial); }
    case Committed => FillKeepsInv(s, w, initial);
    case Finished(_) =>
  }

  lemma {:induction false} NextKeepsInv(s: System, a: Action, initial: map<Item, int>)
    requires Inv(s, initial)
    ensures Inv(Next(s, a), initial)
  {
    match a
    case Step(w) => if w < |s.workers| { StepKeepsInv(s, w, initial); }
    case Abort(w) =>
      if w < |s.workers| && (s.workers[w].pc.Checking? || s.workers[w].pc.Decrementing?) { FailKeepsInv(s, w, initial); }
    case Restart => RestartKeepsInv(s, initial);
  }

  lemma {:induction false} RunKeepsInv(stock: map<Item, int>, workers: seq<Worker>, actions: seq<Action>)
    requires Fresh(workers)
    ensures Inv(Run(Initial(stock, workers), actions), stock)
  {
    if actions == [] {
      CountNone(workers);
    } else {
      var before := actions[..|actions| - 1];
      RunKeepsInv(stock, workers, before);
      NextKeepsInv(Run(Initial(stock, workers), before), actions[|actions| - 1], stock);
    }
  }
}
