/** When a cached OUT_OF_STOCK reply can be believed: exactly when no key is used by two requests. */
module SoldOutCache {
  import opened Stock
  import opened InventoryRace
  import opened FlashSale

  /** No key that is cached as OUT_OF_STOCK has a reservation. */
  ghost predicate Honest(s: System) {
    forall key :: key in s.cache && s.cache[key].SoldOutEntry? ==> !KeyTaken(s.rows, key)
  }

  /** No two requests that get past validation share a key. */
  predicate OneRequestPerKey(workers: seq<Worker>) {
    forall v, w :: 0 <= v < w < |workers| && workers[v].items != [] && workers[w].items != [] ==>
                   workers[v].key != workers[w].key
  }

  /** Whatever the stock and the schedule, with aborts and restarts anywhere. */
  ghost predicate AlwaysHonest(workers: seq<Worker>) {
    forall stock: map<Item, int>, actions :: Honest(Run(Initial(stock, workers), actions))
  }

  // ----- One request per key is enough -----

  predicate SoldOutBy(workers: seq<Worker>, key: Key) {
    exists w :: 0 <= w < |workers| && workers[w].key == key && workers[w].items != [] && workers[w].pc == Finished(SoldOut)
  }

  predicate Entered(wk: Worker) {
    wk.pc.Checking? || wk.pc.Decrementing? || HasCommitted(wk)
  }

  /** Every OUT_OF_STOCK entry has a request that was told so, and only requests with items get past validation. */
  ghost predicate Traced(s: System) {
    && (forall key :: key in s.cache && s.cache[key].SoldOutEntry? ==> SoldOutBy(s.workers, key))
    && (forall w :: 0 <= w < |s.workers| && Entered(s.workers[w]) ==> s.workers[w].items != [])
  }

  lemma {:induction false} SoldOutStays(workers: seq<Worker>, w: nat, wk: Worker, key: Key)
    requires w < |workers| && SoldOutBy(workers, key) && !workers[w].pc.Finished?
    ensures SoldOutBy(workers[w := wk], key)
  {
    var v :| 0 <= v < |workers| && workers[v].key == key && workers[v].items != [] && workers[v].pc == Finished(SoldOut);
    assert workers[w := wk][v] == workers[v];
  }

  lemma {:induction false} MoveIsTraced(s: System, w: nat, wk: Worker, cache: map<Key, Entry>, s': System)
    requires Traced(s) && w < |s.workers| && !s.workers[w].pc.Finished?
    requires s'.workers == s.workers[w := wk] && s'.cache == cache
    requires wk.key == s.workers[w].key && wk.items == s.workers[w].items && (Entered(wk) ==> wk.items != [])
    requires forall key :: key in cache && cache[key].SoldOutEntry? ==>
      (key in s.cache && s.cache[key].SoldOutEntry?) || (key == wk.key && wk.pc == Finished(SoldOut) && wk.items != [])
    ensures Traced(s')
  {
    forall key | key in cache && cache[key].SoldOutEntry? ensures SoldOutBy(s'.workers, key) {
      if key in s.cache && s.cache[key].SoldOutEntry? {
        SoldOutStays(s.workers, w, wk, key);
      } else {
        assert s'.workers[w] == wk;
      }
    }
  }

  lemma {:induction false} StepIsTraced(s: System, w: nat, initial: map<Item, int>)
    requires Inv(s, initial) && Traced(s) && w < |s.workers|
    ensures Traced(StepWorker(s, w))
  {
    var s' := StepWorker(s, w);
    AboutWorker(s, w, initial);
    StepIsLocal(s, w);
    if !s.workers[w].pc.Finished? {
      StepEnters(s, w);
      MoveIsTraced(s, w, s'.workers[w], s'.cache, s');
    }
  }

  /** What one step does to the cache, and to a request without items. */
  lemma {:induction false} StepEnters(s: System, w: nat)
    requires w < |s.workers| && !s.workers[w].pc.Finished? && (Entered(s.workers[w]) ==> s.workers[w].items != [])
    ensures var s', wk := StepWorker(s, w), StepWorker(s, w).workers[w];
      && (Entered(wk) ==> s.workers[w].items != [])
      && (forall key :: key in s'.cache && s'.cache[key].SoldOutEntry? ==>
            (key in s.cache && s.cache[key].SoldOutEntry?)
            || (key == s.workers[w].key && wk.pc == Finished(SoldOut) && s.workers[w].items != []))
  {
    match s.workers[w].pc
    case Idle =>
    case Checking(_) =>
    case Decrementing(_) =>
    case Committed =>
  }

  lemma {:induction false} NextIsTraced(s: System, a: Action, initial: map<Item, int>)
    requires Inv(s, initial) && Traced(s)
    ensures Traced(Next(s, a))
  {
    match a
    case Step(w) => if w < |s.workers| { StepIsTraced(s, w, initial); }
    case Abort(w) =>
      if w < |s.workers| && (s.workers[w].pc.Checking? || s.workers[w].pc.Decrementing?) {
        MoveIsTraced(s, w, Gone(s.workers[w], Failed), s.cache, Next(s, a));
      }
    case Restart =>
      forall w | 0 <= w < |s.workers| && Entered(Kill(s.workers[w])) ensures s.workers[w].items != [] {
        assert Entered(s.workers[w]);
      }
  }

  lemma {:induction false} RunIsTraced(stock: map<Item, int>, workers: seq<Worker>, actions: seq<Action>)
    requires Fresh(workers)
    ensures Traced(Run(Initial(stock, workers), actions))
  {
    if actions != [] {
      var before := actions[..|actions| - 1];
      RunIsTraced(stock, workers, before);
      RunKeepsInv(stock, workers, before);
      NextIsTraced(Run(Initial(stock, workers), before), actions[|actions| - 1], stock);
    }
  }

  lemma {:induction false} TracedIsHonest(s: System, initial: map<Item, int>)
    requires Inv(s, initial) && Traced(s) && OneRequestPerKey(s.workers)
    ensures Honest(s)
  {
    forall key, k | key in s.cache && s.cache[key].SoldOutEntry? && 0 <= k < |s.rows| ensures s.rows[k].key != key {
      var w :| 0 <= w < |s.workers| && s.workers[w].key == key && s.workers[w].items != []
               && s.workers[w].pc == Finished(SoldOut);
      var v := s.rows[k].worker;
      assert RowOk(s.rows[k], s.workers) && Entered(s.workers[v]);
      assert v != w;
    }
  }

  lemma {:induction false} DistinctIsHonest(stock: map<Item, int>, workers: seq<Worker>, actions: seq<Action>)
    requires Fresh(workers) && OneRequestPerKey(workers)
    ensures Honest(Run(Initial(stock, workers), actions))
  {
    RunKeepsInv(stock, workers, actions);
    RunIsTraced(stock, workers, actions);
    RunKeepsRequests(Initial(stock, workers), actions);
    TracedIsHonest(Run(Initial(stock, workers), actions), stock);
  }

  // ----- and necessary -----

  /** Worker `v` is inside its transaction and nobody else holds a row; `w` has passed the cache check. */
  ghost predicate Solo(s: System, v: nat, w: nat, stock: map<Item, int>) {
    && Inv(s, stock) && s.stock == stock && s.rows == []
    && v < |s.workers| && w < |s.workers| && v != w && s.workers[w].pc == Checking(0)
    && (forall u :: 0 <= u < |s.workers| && u != v ==> Locked(s.workers[u]) == [])
  }

  lemma {:induction false} OnlyOwnLocks(s: System, v: nat, w: nat, stock: map<Item, int>, item: Item)
    requires Solo(s, v, w, stock) && item in s.locks
    ensures s.locks[item] == v
  {
    assert item in Locked(s.workers[s.locks[item]]);
  }

  lemma {:induction false} SoloGoesOn(s: System, v: nat, w: nat, stock: map<Item, int>)
    requires Solo(s, v, w, stock)
    requires !(s.workers[v].pc.Decrementing? && s.workers[v].pc.done >= |s.workers[v].items|)
    requires StepWorker(s, v).rows == []
    ensures Solo(StepWorker(s, v), v, w, stock)
  {
    StepKeepsInv(s, v, stock);
    StepIsLocal(s, v);
    OthersKeepStock(s, v);
  }

  lemma {:induction false} SoloChecks(s: System, v: nat, w: nat, stock: map<Item, int>)
    requires Solo(s, v, w, stock) && s.workers[v].pc.Checking? && s.workers[v].pc.done < |s.workers[v].items|
    requires var item := s.workers[v].items[s.workers[v].pc.done]; item in stock && stock[item] > 0
    ensures Solo(StepWorker(s, v), v, w, stock) && StepWorker(s, v).workers[v].pc == Checking(s.workers[v].pc.done + 1)
  {
    var item := s.workers[v].items[s.workers[v].pc.done];
    AboutWorker(s, v, stock);
    CheckingIsCurrent(s.workers[v], v, s.stock, s.locks, item);
    if item in s.locks { OnlyOwnLocks(s, v, w, stock, item); }
    SoloGoesOn(s, v, w, stock);
  }

  lemma {:induction false} SoloTurns(s: System, v: nat, w: nat, stock: map<Item, int>)
    requires Solo(s, v, w, stock) && s.workers[v].pc == Checking(|s.workers[v].items|)
    ensures Solo(StepWorker(s, v), v, w, stock) && StepWorker(s, v).workers[v].pc == Decrementing(0)
  {
    SoloGoesOn(s, v, w, stock);
  }

  lemma {:induction false} SoloTakes(s: System, v: nat, w: nat, stock: map<Item, int>)
    requires Solo(s, v, w, stock) && s.workers[v].pc.Decrementing? && s.workers[v].pc.done < |s.workers[v].items|
    ensures Solo(StepWorker(s, v), v, w, stock) && StepWorker(s, v).workers[v].pc == Decrementing(s.workers[v].pc.done + 1)
  {
    AboutWorker(s, v, stock);
    TakeNextOwns(s.workers[v], v, s.stock, s.locks);
    SoloGoesOn(s, v, w, stock);
  }

  /** The schedule so far has led to `s`. */
  predicate Led(stock: map<Item, int>, workers: seq<Worker>, actions: seq<Action>, s: System) {
    s == Run(Initial(stock, workers), actions)
  }

  lemma {:induction false} LedOn(stock: map<Item, int>, workers: seq<Worker>, actions: seq<Action>, s: System, w: nat)
    requires Led(stock, workers, actions, s) && w < |s.workers|
    ensures Led(stock, workers, actions + [Step(w)], StepWorker(s, w))
  {
    RunAppend(Initial(stock, workers), actions, Step(w));
  }

  /** The schedule has led to `s`, where `v` is alone at `pc`, with one unit of everything it lists. */
  ghost predicate Reached(workers: seq<Worker>, v: nat, w: nat, actions: seq<Action>, s: System, pc: Pc) {
    && v < |workers| && SameRequests(workers, s.workers)
    && Led(OneOfEach(workers[v].items), workers, actions, s) && Solo(s, v, w, OneOfEach(workers[v].items))
    && s.workers[v].pc == pc
  }

  /** `w` and then `v` pass the cache check. */
  lemma {:induction false} BothPass(workers: seq<Worker>, v: nat, w: nat) returns (actions: seq<Action>, s: System)
    requires Fresh(workers) && v < |workers| && w < |workers| && v != w && workers[v].items != [] && workers[w].items != []
    ensures Reached(workers, v, w, actions, s, Checking(0))
  {
    var stock := OneOfEach(workers[v].items);
    var s0 := Initial(stock, workers);
    var s1 := StepWorker(s0, w);
    s := StepWorker(s1, v);
    assert Led(stock, workers, [], s0);
    LedOn(stock, workers, [], s0, w);
    LedOn(stock, workers, [] + [Step(w)], s1, v);
    actions := [] + [Step(w)] + [Step(v)];
    RunKeepsInv(stock, workers, actions);
    RunKeepsRequests(s0, actions);
    assert s.workers == workers[w := workers[w].(pc := Checking(0))][v := workers[v].(pc := Checking(0))];
  }

  /** Where a request that finds everything in stock goes next. */
  function Onward(pc: Pc, n: nat): Pc {
    match pc
    case Checking(p) => if p < n then Checking(p + 1) else Decrementing(0)
    case Decrementing(p) => Decrementing(p + 1)
    case _ => pc
  }

  lemma {:induction false} StepKeepsRequests(workers: seq<Worker>, s: System, v: nat)
    requires v < |s.workers| && SameRequests(workers, s.workers)
    ensures SameRequests(workers, StepWorker(s, v).workers)
  {
    StepIsLocal(s, v);
  }

  lemma {:induction false} SoloOnward(s: System, v: nat, w: nat, stock: map<Item, int>, pc: Pc)
    requires Solo(s, v, w, stock) && s.workers[v].pc == pc && stock == OneOfEach(s.workers[v].items)
    requires (pc.Checking? && pc.done <= |s.workers[v].items|) || (pc.Decrementing? && pc.done < |s.workers[v].items|)
    ensures Solo(StepWorker(s, v), v, w, stock) && StepWorker(s, v).workers[v].pc == Onward(pc, |s.workers[v].items|)
  {
    if pc.Decrementing? {
      SoloTakes(s, v, w, stock);
    } else if pc.done < |s.workers[v].items| {
      SoloChecks(s, v, w, stock);
    } else {
      SoloTurns(s, v, w, stock);
    }
  }

  lemma {:induction false} ReachesOn(workers: seq<Worker>, v: nat, w: nat, actions: seq<Action>, s: System, pc: Pc)
    returns (actions': seq<Action>, s': System)
    requires Reached(workers, v, w, actions, s, pc)
    requires (pc.Checking? && pc.done <= |workers[v].items|) || (pc.Decrementing? && pc.done < |workers[v].items|)
    ensures Reached(workers, v, w, actions', s', Onward(pc, |workers[v].items|))
  {
    var stock := OneOfEach(workers[v].items);
    LedOn(stock, workers, actions, s, v);
    StepKeepsRequests(workers, s, v);
    SoloOnward(s, v, w, stock, pc);
    actions', s' := actions + [Step(v)], StepWorker(s, v);
  }

  /** How far a request is from the end of its second pass. */
  function Ahead(pc: Pc, n: nat): nat {
    match pc
    case Checking(p) => if p <= n then 2 * n + 1 - p else 0
    case Decrementing(p) => if p <= n then n - p else 0
    case _ => 0
  }

  /** `v` goes through both passes alone. */
  lemma {:induction false} GoesThrough(workers: seq<Worker>, v: nat, w: nat, start: seq<Action>, s0: System, pc: Pc)
    returns (actions: seq<Action>, s: System)
    requires Reached(workers, v, w, start, s0, pc)
    requires (pc.Checking? || pc.Decrementing?) && pc.done <= |workers[v].items|
    ensures Reached(workers, v, w, actions, s, Decrementing(|workers[v].items|))
    decreases Ahead(pc, |workers[v].items|)
  {
    if pc == Decrementing(|workers[v].items|) {
      actions, s := start, s0;
    } else {
      var actions', s' := ReachesOn(workers, v, w, start, s0, pc);
      actions, s := GoesThrough(workers, v, w, actions', s', Onward(pc, |workers[v].items|));
    }
  }

  /** After the commit of `v` nothing it listed is left, no row is locked, and its key is taken. */
  lemma {:induction false} SoloCommits(s: System, v: nat, w: nat, stock: map<Item, int>)
    requires Solo(s, v, w, stock) && s.workers[v].pc == Decrementing(|s.workers[v].items|)
    requires stock == OneOfEach(s.workers[v].items)
    ensures var s' := StepWorker(s, v);
      && Inv(s', stock) && s'.workers[v].pc.Committed? && s'.workers[w] == s.workers[w]
      && KeyTaken(s'.rows, s.workers[v].key) && s'.locks == map[]
      && (forall item :: item in s'.stock ==> s'.stock[item] <= 0)
  {
    var s', wk := StepWorker(s, v), s.workers[v];
    AboutWorker(s, v, stock);
    WriteBack(wk, v, s.stock, s.locks);
    StepKeepsInv(s, v, stock);
    assert s'.rows == [Row(wk.key, wk.items, v)] && s'.rows[0].key == wk.key;
    forall item | item in s'.stock ensures s'.stock[item] <= 0 {
      UnitsSome(wk.items, item);
    }
    forall item | item in s.locks ensures s.locks[item] == v {
      OnlyOwnLocks(s, v, w, stock, item);
    }
  }

  lemma {:induction false} LastTurnedAway(s: System, w: nat, initial: map<Item, int>)
    requires Inv(s, initial) && w < |s.workers| && s.workers[w].pc == Checking(0) && s.workers[w].items != []
    requires s.locks == map[] && forall item :: item in s.stock ==> s.stock[item] <= 0
    ensures var s', key := StepWorker(s, w), s.workers[w].key;
      s'.rows == s.rows && key in s'.cache && s'.cache[key].SoldOutEntry?
  {
    var item := s.workers[w].items[0];
    AboutWorker(s, w, initial);
    if item in s.stock { CheckingIsCurrent(s.workers[w], w, s.stock, s.locks, item); }
  }

  /** Any two requests under one key can leave an OUT_OF_STOCK entry for a key that has a reservation: both pass the cache
      check, one takes the last units, and the other then overwrites its entry. */
  lemma {:induction false} SoldOutEntryMayLie(workers: seq<Worker>, v: nat, w: nat) returns (actions: seq<Action>)
    requires Fresh(workers) && v < |workers| && w < |workers| && v != w
    requires workers[v].key == workers[w].key && workers[v].items != [] && workers[w].items != []
    ensures !Honest(Run(Initial(OneOfEach(workers[v].items), workers), actions))
  {
    var stock, key := OneOfEach(workers[v].items), workers[v].key;
    var s: System;
    actions, s := BothPass(workers, v, w);
    actions, s := GoesThrough(workers, v, w, actions, s, Checking(0));
    LedOn(stock, workers, actions, s, v);
    SoloCommits(s, v, w, stock);
    actions, s := actions + [Step(v)], StepWorker(s, v);
    LedOn(stock, workers, actions, s, v);
    FillKeepsInv(s, v, stock);
    actions, s := actions + [Step(v)], StepWorker(s, v);
    LedOn(stock, workers, actions, s, w);
    LastTurnedAway(s, w, stock);
    actions, s := actions + [Step(w)], StepWorker(s, w);
    assert key in s.cache && s.cache[key].SoldOutEntry? && KeyTaken(s.rows, key);
  }

  /** The exact condition, which a caller can check on its requests: an OUT_OF_STOCK entry means that its key has no
      reservation, for every stock and every schedule, exactly when no two requests with items share a key. */
  lemma {:induction false} SoldOutEntriesAreRightIff(workers: seq<Worker>)
    requires Fresh(workers)
    ensures AlwaysHonest(workers) <==> OneRequestPerKey(workers)
  {
    if OneRequestPerKey(workers) {
      forall stock: map<Item, int>, actions ensures Honest(Run(Initial(stock, workers), actions)) {
        DistinctIsHonest(stock, workers, actions);
      }
    } else {
      var v, w :| 0 <= v < w < |workers| && workers[v].items != [] && workers[w].items != []
                  && workers[v].key == workers[w].key;
      var actions := SoldOutEntryMayLie(workers, v, w);
    }
  }
}
