/** The inventory service one request at a time: two-pass reserve, release, replay cache, and conservation of stock. */
module Inventory {
  import opened Common
  import opened Stock

  type Id = string
  type Key = string

  datatype Status = Reserved | OutOfStock | Released

  datatype Reservation = Reservation(reservationId: Id, orderId: Id, items: seq<Item>, status: Status, key: Key)

  /** `ReservationResponse`, without its message text. */
  datatype Response = Response(reservationId: Id, orderId: Id, status: Status, items: seq<Item>, key: Key)

  datatype State = State(stock: map<Item, int>, reservations: seq<Reservation>, cache: map<Key, Response>)

  datatype Action =
    | Reserve(orderId: Id, items: seq<Item>, key: Key, reservationId: Id)
    | Release(orderId: Id, reservationId: Id, key: Key)

  // ----- Specification -----

  predicate Taken(reservations: seq<Reservation>, key: Key, id: Id) {
    exists k :: 0 <= k < |reservations| && (reservations[k].key == key || reservations[k].reservationId == id)
  }

  function Find(reservations: seq<Reservation>, id: Id): (at: Option<nat>)
    ensures at.Some? ==> at.value < |reservations| && reservations[at.value].reservationId == id
    ensures at.Some? ==> forall k :: 0 <= k < at.value ==> reservations[k].reservationId != id
    ensures at.None? ==> forall k :: 0 <= k < |reservations| ==> reservations[k].reservationId != id
  {
    FindFrom(reservations, id, 0)
  }

  function FindFrom(reservations: seq<Reservation>, id: Id, from: nat): (at: Option<nat>)
    requires from <= |reservations|
    ensures at.Some? ==> from <= at.value < |reservations| && reservations[at.value].reservationId == id
    ensures at.Some? ==> forall k :: from <= k < at.value ==> reservations[k].reservationId != id
    ensures at.None? ==> forall k :: from <= k < |reservations| ==> reservations[k].reservationId != id
    decreases |reservations| - from
  {
    if from == |reservations| then None
    else if reservations[from].reservationId == id then Some(from)
    else FindFrom(reservations, id, from + 1)
  }

  /** `reserve_stock`: an empty list is refused by validation, a duplicate key by the UNIQUE column. */
  function DoReserve(s: State, a: Action): (State, Outcome<Response>)
    requires a.Reserve?
  {
    var ok := Response(a.reservationId, a.orderId, Reserved, a.items, a.key);
    var out := ok.(status := OutOfStock);
    if a.items == [] then (s, Raise)
    else if a.key in s.cache then (s, Return(s.cache[a.key]))
    else if !Available(s.stock, a.items) then (s.(cache := s.cache[a.key := out]), Return(out))
    else if Taken(s.reservations, a.key, a.reservationId) then (s, Raise)
    else
      (State(Subtract(s.stock, a.items),
             s.reservations + [Reservation(a.reservationId, a.orderId, a.items, Reserved, a.key)],
             s.cache[a.key := ok]),
       Return(ok))
  }

  /** `release_stock`: a missing reservation is a 404; the status of the reservation is not looked at. */
  function DoRelease(s: State, a: Action): (State, Outcome<Response>)
    requires a.Release?
  {
    if a.key in s.cache then (s, Return(s.cache[a.key]))
    else
      match Find(s.reservations, a.reservationId)
      case None => (s, Raise)
      case Some(k) =>
        var r := s.reservations[k];
        var done := Response(a.reservationId, a.orderId, Released, r.items, a.key);
        (State(Restore(s.stock, r.items),
               s.reservations[k := r.(status := Released)],
               s.cache[a.key := done]),
         Return(done))
  }

  function Serve(s: State, a: Action): (State, Outcome<Response>) {
    if a.Reserve? then DoReserve(s, a) else DoRelease(s, a)
  }

  function Run(s: State, actions: seq<Action>): State {
    if actions == [] then s else Serve(Run(s, actions[..|actions| - 1]), actions[|actions| - 1]).0
  }

  function Initial(stock: map<Item, int>): State {
    State(stock, [], map[])
  }

  // ----- What the replies say -----

  /** Some listed item has no row or no stock. */
  predicate SoldOut(stock: map<Item, int>, items: seq<Item>) {
    exists k :: 0 <= k < |items| && (items[k] !in stock || stock[items[k]] <= 0)
  }

  /** A call that is neither refused by validation nor replayed. */
  predicate IsFresh(s: State, a: Action) {
    a.key !in s.cache && (a.Reserve? ==> a.items != [])
  }

  /** What a reservation is answered, and what it leaves behind: RESERVED exactly when everything listed is in stock and
      no row is in the way, and then with a new row under its key and id; OUT_OF_STOCK exactly when something is missing,
      and then stock and rows are untouched; otherwise an error, and nothing changes. Whatever is answered is cached. */
  lemma {:induction false} ReserveAnswer(s: State, orderId: Id, items: seq<Item>, key: Key, id: Id)
    ensures var a := Reserve(orderId, items, key, id); var (s', reply) := Serve(s, a);
      if items == [] then s' == s && reply == Raise
      else if key in s.cache then s' == s && reply == Return(s.cache[key])
      else if SoldOut(s.stock, items) then
        var r := Response(id, orderId, OutOfStock, items, key);
        reply == Return(r) && s' == State(s.stock, s.reservations, s.cache[key := r])
      else if Taken(s.reservations, key, id) then s' == s && reply == Raise
      else
        var r := Response(id, orderId, Reserved, items, key);
        && reply == Return(r) && s'.cache == s.cache[key := r]
        && s'.reservations == s.reservations + [Reservation(id, orderId, items, Reserved, key)]
        && s'.stock.Keys == s.stock.Keys
        && forall item :: item in s.stock ==> s'.stock[item] == s.stock[item] - Units(items, item)
  {
    SoldOutIff(s.stock, items);
  }

  lemma {:induction false} SoldOutIff(stock: map<Item, int>, items: seq<Item>)
    ensures SoldOut(stock, items) <==> !Available(stock, items)
  {
  }

  /** What a release is answered: an error exactly when the reservation is unknown; otherwise RELEASED with the items of
      the first reservation under that id, which is marked so and whose units are back. */
  lemma {:induction false} ReleaseAnswer(s: State, orderId: Id, id: Id, key: Key)
    ensures var a := Release(orderId, id, key); var (s', reply) := Serve(s, a);
      if key in s.cache then s' == s && reply == Return(s.cache[key])
      else if forall k :: 0 <= k < |s.reservations| ==> s.reservations[k].reservationId != id then s' == s && reply == Raise
      else Releases(s, s', a, reply)
  {
    var at := Find(s.reservations, id);
    if key !in s.cache && at.Some? {
      assert ReleasesAt(s, Serve(s, Release(orderId, id, key)).0, Release(orderId, id, key),
                        Serve(s, Release(orderId, id, key)).1, at.value);
    }
  }

  predicate Releases(s: State, s': State, a: Action, reply: Outcome<Response>)
    requires a.Release?
  {
    exists k :: 0 <= k < |s.reservations| && ReleasesAt(s, s', a, reply, k)
  }

  predicate ReleasesAt(s: State, s': State, a: Action, reply: Outcome<Response>, k: nat)
    requires a.Release? && k < |s.reservations|
  {
    var r := Response(a.reservationId, a.orderId, Released, s.reservations[k].items, a.key);
    && s.reservations[k].reservationId == a.reservationId
    && reply == Return(r) && s'.cache == s.cache[a.key := r]
    && s'.reservations == s.reservations[k := s.reservations[k].(status := Released)]
    && s'.stock.Keys == s.stock.Keys
    && forall item :: item in s.stock ==> s'.stock[item] == s.stock[item] + Units(s.reservations[k].items, item)
  }

  // ----- What the cache says, over every serial run -----

  predicate HasReservation(reservations: seq<Reservation>, r: Response) {
    exists k :: 0 <= k < |reservations|
                && reservations[k] == Reservation(r.reservationId, r.orderId, r.items, reservations[k].status, r.key)
  }

  predicate HasReleased(reservations: seq<Reservation>, r: Response) {
    exists k :: 0 <= k < |reservations| && reservations[k].reservationId == r.reservationId
                && reservations[k].items == r.items && reservations[k].status.Released?
  }

  predicate EntryOk(reservations: seq<Reservation>, key: Key, r: Response) {
    && r.key == key
    && match r.status {
         case Reserved => HasReservation(reservations, r)
         case Released => HasReleased(reservations, r)
         case OutOfStock => forall k :: 0 <= k < |reservations| ==> reservations[k].key != key
       }
  }

  /** Every cached reply is true, and every reservation's key is cached. */
  ghost predicate CacheOk(s: State) {
    && (forall key :: key in s.cache ==> EntryOk(s.reservations, key, s.cache[key]))
    && (forall k :: 0 <= k < |s.reservations| ==> s.reservations[k].key in s.cache)
  }

  lemma {:induction false} EntryGrows(reservations: seq<Reservation>, row: Reservation, key: Key, r: Response)
    requires EntryOk(reservations, key, r) && row.key != key
    ensures EntryOk(reservations + [row], key, r)
  {
    var rows := reservations + [row];
    match r.status
    case Reserved =>
      var k :| 0 <= k < |reservations|
               && reservations[k] == Reservation(r.reservationId, r.orderId, r.items, reservations[k].status, r.key);
      assert rows[k] == reservations[k];
    case Released =>
      var k :| 0 <= k < |reservations| && reservations[k].reservationId == r.reservationId
               && reservations[k].items == r.items && reservations[k].status.Released?;
      assert rows[k] == reservations[k];
    case OutOfStock =>
  }

  lemma {:induction false} EntryReleased(reservations: seq<Reservation>, j: nat, key: Key, r: Response)
    requires EntryOk(reservations, key, r) && j < |reservations|
    ensures EntryOk(reservations[j := reservations[j].(status := Released)], key, r)
  {
    var rows := reservations[j := reservations[j].(status := Released)];
    match r.status
    case Reserved =>
      var k :| 0 <= k < |reservations|
               && reservations[k] == Reservation(r.reservationId, r.orderId, r.items, reservations[k].status, r.key);
      assert rows[k] == Reservation(r.reservationId, r.orderId, r.items, rows[k].status, r.key);
    case Released =>
      var k :| 0 <= k < |reservations| && reservations[k].reservationId == r.reservationId
               && reservations[k].items == r.items && reservations[k].status.Released?;
      assert rows[k].reservationId == r.reservationId;
    case OutOfStock =>
  }

  lemma {:induction false} ReserveKeepsCache(s: State, a: Action)
    requires CacheOk(s) && a.Reserve?
    ensures CacheOk(Serve(s, a).0)
  {
    ReserveAnswer(s, a.orderId, a.items, a.key, a.reservationId);
    var s' := Serve(s, a).0;
    if IsFresh(s, a) && !SoldOut(s.stock, a.items) && !Taken(s.reservations, a.key, a.reservationId) {
      var row := Reservation(a.reservationId, a.orderId, a.items, Reserved, a.key);
      forall key | key in s'.cache ensures EntryOk(s'.reservations, key, s'.cache[key]) {
        if key != a.key {
          EntryGrows(s.reservations, row, key, s.cache[key]);
        } else {
          assert s'.reservations[|s.reservations|] == row;
        }
      }
    }
  }

  lemma {:induction false} ReleaseKeepsCache(s: State, a: Action)
    requires CacheOk(s) && a.Release?
    ensures CacheOk(Serve(s, a).0)
  {
    var s' := Serve(s, a).0;
    var at := Find(s.reservations, a.reservationId);
    if a.key !in s.cache && at.Some? {
      forall key | key in s'.cache ensures EntryOk(s'.reservations, key, s'.cache[key]) {
        if key != a.key {
          EntryReleased(s.reservations, at.value, key, s.cache[key]);
        } else {
          assert s'.reservations[at.value].status.Released?;
        }
      }
    }
  }

  /** Over every serial run: a cached RESERVED names a reservation with its key, id, order and items, a cached RELEASED one
      that has been released, and a key cached as OUT_OF_STOCK has no reservation. */
  lemma {:induction false} CachedRepliesAreTrue(stock: map<Item, int>, actions: seq<Action>)
    ensures CacheOk(Run(Initial(stock), actions))
  {
    if actions != [] {
      var before, a := actions[..|actions| - 1], actions[|actions| - 1];
      CachedRepliesAreTrue(stock, before);
      var s := Run(Initial(stock), before);
      if a.Reserve? { ReserveKeepsCache(s, a); } else { ReleaseKeepsCache(s, a); }
    }
  }

  lemma {:induction false} CacheStays(s: State, actions: seq<Action>, key: Key)
    requires key in s.cache
    ensures var s' := Run(s, actions); key in s'.cache && s'.cache[key] == s.cache[key]
  {
    if actions != [] {
      CacheStays(s, actions[..|actions| - 1], key);
    }
  }

  /** The first reply under a key is the reply for good: whatever happens in between, every later call with that key that
      validation lets through returns it and changes nothing. */
  lemma {:induction false} FirstReplyIsReplayed(s: State, a: Action, between: seq<Action>, again: Action)
    requires Serve(s, a).1.Return? && again.key == a.key && (again.Reserve? ==> again.items != [])
    ensures var s' := Run(Serve(s, a).0, between);
      Serve(s', again) == (s', Serve(s, a).1)
  {
    var s1 := Serve(s, a).0;
    assert a.key in s1.cache && Return(s1.cache[a.key]) == Serve(s, a).1;
    CacheStays(s1, between, a.key);
  }

  // ----- Conservation -----

  /** Units of an item in reservations that are still RESERVED. */
  function UnitsReserved(reservations: seq<Reservation>, item: Item): nat {
    if reservations == [] then 0
    else
      var r := reservations[|reservations| - 1];
      UnitsReserved(reservations[..|reservations| - 1], item) + if r.status.Reserved? then Units(r.items, item) else 0
  }

  function Total(s: State, item: Item): int
    requires item in s.stock
  {
    s.stock[item] + UnitsReserved(s.reservations, item)
  }

  lemma {:induction false} ReservedAppend(reservations: seq<Reservation>, r: Reservation, item: Item)
    ensures UnitsReserved(reservations + [r], item)
      == UnitsReserved(reservations, item) + if r.status.Reserved? then Units(r.items, item) else 0
  {
    assert (reservations + [r])[..|reservations|] == reservations;
  }

  lemma {:induction false} ReservedRelease(reservations: seq<Reservation>, k: nat, item: Item)
    requires k < |reservations|
    ensures UnitsReserved(reservations[k := reservations[k].(status := Released)], item)
      == UnitsReserved(reservations, item) - if reservations[k].status.Reserved? then Units(reservations[k].items, item) else 0
  {
    var n := |reservations| - 1;
    var after := reservations[k := reservations[k].(status := Released)];
    if k < n {
      ReservedRelease(reservations[..n], k, item);
      assert after[..n] == reservations[..n][k := reservations[k].(status := Released)];
    } else {
      assert after[..n] == reservations[..n];
    }
  }

  /** What a call adds to an item's total: nothing, except that releasing a reservation that is no longer RESERVED
      creates units out of thin air. */
  function Created(s: State, a: Action, item: Item): nat {
    if a.Reserve? || a.key in s.cache then 0
    else match Find(s.reservations, a.reservationId)
      case None => 0
      case Some(k) => if s.reservations[k].status.Reserved? then 0 else Units(s.reservations[k].items, item)
  }

  /** Exact accounting of every call, so conservation holds exactly where `Created` is zero. */
  lemma {:induction false} CallAccounting(s: State, a: Action, item: Item)
    requires item in s.stock
    ensures var s' := Serve(s, a).0;
      item in s'.stock && Total(s', item) == Total(s, item) + Created(s, a, item)
  {
    if a.Reserve? {
      ReservedAppend(s.reservations, Reservation(a.reservationId, a.orderId, a.items, Reserved, a.key), item);
    } else if a.key !in s.cache {
      match Find(s.reservations, a.reservationId)
      case None =>
      case Some(k) => ReservedRelease(s.reservations, k, item);
    }
  }

  /** Every release of a reservation is made under the same key. */
  predicate OneKeyPerReservation(actions: seq<Action>) {
    forall j, k :: 0 <= j < k < |actions| ==> !Clash(actions[j], actions[k])
  }

  /** Two releases of the same reservation under different keys. */
  predicate Clash(a: Action, b: Action) {
    a.Release? && b.Release? && a.reservationId == b.reservationId && a.key != b.key
  }

  predicate ReleasedBy(actions: seq<Action>, id: Id, cache: map<Key, Response>) {
    exists j :: 0 <= j < |actions| && actions[j].Release? && actions[j].reservationId == id && actions[j].key in cache
  }

  /** A reservation that is no longer held has a release in the past whose key is cached. */
  ghost predicate ReleasesRemembered(s: State, actions: seq<Action>) {
    forall k :: 0 <= k < |s.reservations| && !s.reservations[k].status.Reserved? ==>
      ReleasedBy(actions, s.reservations[k].reservationId, s.cache)
  }

  lemma {:induction false} RememberedStep(s: State, actions: seq<Action>, a: Action)
    requires ReleasesRemembered(s, actions)
    ensures ReleasesRemembered(Serve(s, a).0, actions + [a])
  {
    var s' := Serve(s, a).0;
    forall k | 0 <= k < |s'.reservations| && !s'.reservations[k].status.Reserved?
      ensures ReleasedBy(actions + [a], s'.reservations[k].reservationId, s'.cache)
    {
      var id := s'.reservations[k].reservationId;
      if k < |s.reservations| && !s.reservations[k].status.Reserved? {
        var j :| 0 <= j < |actions| && actions[j].Release?
                 && actions[j].reservationId == s.reservations[k].reservationId && actions[j].key in s.cache;
        assert (actions + [a])[j] == actions[j];
      } else {
        assert (actions + [a])[|actions|] == a;
      }
    }
  }

  lemma {:induction false} NothingCreated(s: State, actions: seq<Action>, a: Action, item: Item)
    requires ReleasesRemembered(s, actions) && OneKeyPerReservation(actions + [a])
    ensures Created(s, a, item) == 0
  {
    if a.Release? && Find(s.reservations, a.reservationId).Some? {
      var k := Find(s.reservations, a.reservationId).value;
      if !s.reservations[k].status.Reserved? {
        var j :| 0 <= j < |actions| && actions[j].Release?
                 && actions[j].reservationId == s.reservations[k].reservationId && actions[j].key in s.cache;
        assert (actions + [a])[j] == actions[j] && (actions + [a])[|actions|] == a;
        assert !Clash(actions[j], a);
      }
    }
  }

  /** In every serial run with one release key per reservation, replays included, each item's stock plus its units in
      held reservations is what the stock was at the start. */
  lemma {:induction false} Conservation(stock: map<Item, int>, actions: seq<Action>, item: Item)
    requires OneKeyPerReservation(actions) && item in stock
    ensures var s := Run(Initial(stock), actions);
      item in s.stock && Total(s, item) == stock[item] && ReleasesRemembered(s, actions)
  {
    if actions != [] {
      var before, a := actions[..|actions| - 1], actions[|actions| - 1];
      assert actions == before + [a];
      assert OneKeyPerReservation(before) by {
        forall j, k | 0 <= j < k < |before| ensures !Clash(before[j], before[k]) {
          assert before[j] == actions[j] && before[k] == actions[k];
        }
      }
      Conservation(stock, before, item);
      var s := Run(Initial(stock), before);
      CallAccounting(s, a, item);
      NothingCreated(s, before, a, item);
      RememberedStep(s, before, a);
    }
  }

  /** The units of an item that appeared in a run. */
  function AllCreated(s: State, actions: seq<Action>, item: Item): nat {
    if actions == [] then 0
    else
      var before := actions[..|actions| - 1];
      AllCreated(s, before, item) + Created(Run(s, before), actions[|actions| - 1], item)
  }

  /** Exact accounting of every run, so an item is conserved if and only if no release in the run is of a reservation
      that lists it and is no longer RESERVED. */
  lemma {:induction false} RunAccounting(stock: map<Item, int>, actions: seq<Action>, item: Item)
    requires item in stock
    ensures var s := Run(Initial(stock), actions);
      item in s.stock && Total(s, item) == stock[item] + AllCreated(Initial(stock), actions, item)
  {
    if actions != [] {
      var before := actions[..|actions| - 1];
      RunAccounting(stock, before, item);
      CallAccounting(Run(Initial(stock), before), actions[|actions| - 1], item);
    }
  }

  /** Without the discipline units do appear: wherever a reservation is held, releasing it under two new keys creates all
      its units once. */
  lemma {:induction false} SecondKeyCreates(s: State, k: nat, a: Action, b: Action, item: Item)
    requires a.Release? && b.Release? && a.reservationId == b.reservationId && a.key != b.key
    requires a.key !in s.cache && b.key !in s.cache && item in s.stock
    requires Find(s.reservations, a.reservationId) == Some(k) && s.reservations[k].status.Reserved?
    ensures var s' := Serve(Serve(s, a).0, b).0;
      item in s'.stock && Total(s', item) == Total(s, item) + Units(s.reservations[k].items, item)
  {
    var s1 := Serve(s, a).0;
    CallAccounting(s, a, item);
    CallAccounting(s1, b, item);
    assert s1.reservations == s.reservations[k := s.reservations[k].(status := Released)];
    FindUnmoved(s.reservations, s1.reservations, a.reservationId);
  }

  lemma {:induction false} FindUnmoved(a: seq<Reservation>, b: seq<Reservation>, id: Id)
    requires |a| == |b| && forall j :: 0 <= j < |a| ==> a[j].reservationId == b[j].reservationId
    ensures Find(a, id) == Find(b, id)
  {
    var i, j := Find(a, id), Find(b, id);
    if i.Some? { assert b[i.value].reservationId == id; }
    if j.Some? { assert a[j.value].reservationId == id; }
  }

  /** From an initial state: one unit is reserved, released and released again, and two are in stock. */
  lemma {:induction false} SecondKeyReleasesTwice(item: Item, reserve: Action, a: Action, b: Action)
    requires reserve.Reserve? && reserve.items == [item] && a.Release? && b.Release?
    requires a.reservationId == b.reservationId == reserve.reservationId
    requires a.key != b.key && a.key != reserve.key && b.key != reserve.key
    ensures var s := Run(Initial(map[item := 1]), [reserve, a, b]); item in s.stock && Total(s, item) == 2
  {
    var s0 := Initial(map[item := 1]);
    FirstReserve(item, reserve);
    OneReleasedTwice(Serve(s0, reserve).0, item, a, b);
    RunOfThree(s0, reserve, a, b);
  }

  lemma {:induction false} OneReleasedTwice(s: State, item: Item, a: Action, b: Action)
    requires a.Release? && b.Release? && a.reservationId == b.reservationId && a.key != b.key
    requires a.key !in s.cache && b.key !in s.cache && item in s.stock && |s.reservations| == 1
    requires s.reservations[0].reservationId == a.reservationId && s.reservations[0].status.Reserved?
    requires s.reservations[0].items == [item]
    ensures var s' := Serve(Serve(s, a).0, b).0; item in s'.stock && Total(s', item) == Total(s, item) + 1
  {
    SecondKeyCreates(s, 0, a, b, item);
    UnitsAppend([item], 0, item);
    assert [item][..1] == [item] && [item][..0] == [];
  }

  lemma {:induction false} FirstReserve(item: Item, reserve: Action)
    requires reserve.Reserve? && reserve.items == [item]
    ensures var s1 := Serve(Initial(map[item := 1]), reserve).0;
      && s1.cache.Keys == {reserve.key} && item in s1.stock && Total(s1, item) == 1
      && s1.reservations == [Reservation(reserve.reservationId, reserve.orderId, [item], Reserved, reserve.key)]
  {
    var s0 := Initial(map[item := 1]);
    assert Available(s0.stock, [item]) && !Taken([], reserve.key, reserve.reservationId);
    CallAccounting(s0, reserve, item);
  }

  lemma {:induction false} RunOfThree(s: State, a: Action, b: Action, c: Action)
    ensures Run(s, [a, b, c]) == Serve(Serve(Serve(s, a).0, b).0, c).0
  {
    assert [a, b, c][..2] == [a, b] && [a, b][..1] == [a] && [a][..0] == [];
    assert Run(s, [a]) == Serve(s, a).0;
    assert Run(s, [a, b]) == Serve(Serve(s, a).0, b).0;
  }

  /** In every serial run whose requests list an item at most `m` times, its stock stays at or above `1 - m`; with no
      repeated items it is never negative. */
  lemma {:induction false} StockBound(stock: map<Item, int>, actions: seq<Action>, item: Item, m: nat)
    requires item in stock && stock[item] >= 0 && m >= 1
    requires forall k :: 0 <= k < |actions| && actions[k].Reserve? ==> Units(actions[k].items, item) <= m
    ensures var s := Run(Initial(stock), actions); item in s.stock && s.stock[item] >= 1 - m
  {
    if actions != [] {
      var before, a := actions[..|actions| - 1], actions[|actions| - 1];
      StockBound(stock, before, item, m);
      var s := Run(Initial(stock), before);
      if a.Reserve? && Available(s.stock, a.items) { SubtractBound(s.stock, a.items, item); }
    }
  }

  // ----- The service -----

  class InventoryService {
    var stock: map<Item, int>
    var reservations: seq<Reservation>
    var cache: map<Key, Response>

    function View(): State
      reads this
    {
      State(stock, reservations, cache)
    }

    constructor (stock: map<Item, int>)
      ensures View() == Initial(stock)
    {
      this.stock, reservations, cache := stock, [], map[];
    }

    /** First pass: stops at the first item that has no row or no stock. */
    method CheckAll(items: seq<Item>) returns (ok: bool)
      ensures ok <==> Available(stock, items)
    {
      for k := 0 to |items|
        invariant Available(stock, items[..k])
      {
        if items[k] !in stock || stock[items[k]] <= 0 {
          return false;
        }
      }
      assert items[..|items|] == items;
      return true;
    }

    /** Second pass: one unit per listed item. */
    method DecrementAll(items: seq<Item>)
      requires Available(stock, items)
      modifies this`stock
      ensures stock == Subtract(old(stock), items)
    {
      for k := 0 to |items|
        invariant stock == Subtract(old(stock), items[..k])
      {
        SubtractStep(old(stock), items, k);
        stock := stock[items[k] := stock[items[k]] - 1];
      }
      assert items[..|items|] == items;
    }

    method IncrementAll(items: seq<Item>)
      modifies this`stock
      ensures stock == Restore(old(stock), items)
    {
      for k := 0 to |items|
        invariant stock == Restore(old(stock), items[..k])
      {
        RestoreStep(old(stock), items, k);
        if items[k] in stock {
          stock := stock[items[k] := stock[items[k]] + 1];
        }
      }
      assert items[..|items|] == items;
    }

    /** Both passes run inside one transaction and achieve the all-or-nothing subtraction; a duplicate key fails the
        insert and the whole transaction is undone. */
    method ReserveStock(a: Action) returns (reply: Outcome<Response>)
      requires a.Reserve?
      modifies this
      ensures (View(), reply) == DoReserve(old(View()), a)
      ensures IsFresh(old(View()), a) ==>
        && (SoldOut(old(stock), a.items) <==> reply.Return? && reply.value.status.OutOfStock?)
        && (!SoldOut(old(stock), a.items) && !Taken(old(reservations), a.key, a.reservationId) <==>
              reply.Return? && reply.value.status.Reserved?)
    {
      SoldOutIff(stock, a.items);
      if a.items == [] { return Raise; }
      if a.key in cache { return Return(cache[a.key]); }
      var response := Response(a.reservationId, a.orderId, Reserved, a.items, a.key);
      var before := stock;
      var ok := CheckAll(a.items);
      if !ok {
        cache := cache[a.key := response.(status := OutOfStock)];
        return Return(response.(status := OutOfStock));
      }
      DecrementAll(a.items);
      if Taken(reservations, a.key, a.reservationId) {
        stock := before;
        return Raise;
      }
      reservations := reservations + [Reservation(a.reservationId, a.orderId, a.items, Reserved, a.key)];
      cache := cache[a.key := response];
      return Return(response);
    }

    /** Restores the stock of the reservation, whatever its status was. */
    method ReleaseStock(a: Action) returns (reply: Outcome<Response>)
      requires a.Release?
      modifies this
      ensures (View(), reply) == DoRelease(old(View()), a)
      ensures a.key !in old(cache) && reply.Return? ==> Releases(old(View()), View(), a, reply)
    {
      ReleaseAnswer(View(), a.orderId, a.reservationId, a.key);
      if a.key in cache { return Return(cache[a.key]); }
      var at := Find(reservations, a.reservationId);
      if at.None? { return Raise; }
      var r := reservations[at.value];
      IncrementAll(r.items);
      reservations := reservations[at.value := r.(status := Released)];
      var response := Response(a.reservationId, a.orderId, Released, r.items, a.key);
      cache := cache[a.key := response];
      return Return(response);
    }
  }
}
