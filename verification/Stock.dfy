/** Stock levels and the multiset arithmetic of a reservation. */
module Stock {
  type Item = string

  /** How often an item is listed. */
  function Units(items: seq<Item>, item: Item): nat {
    if items == [] then 0
    else Units(items[..|items| - 1], item) + if items[|items| - 1] == item then 1 else 0
  }

  lemma {:induction false} UnitsIsMultiplicity(items: seq<Item>, item: Item)
    ensures Units(items, item) == multiset(items)[item]
  {
    if items != [] {
      UnitsIsMultiplicity(items[..|items| - 1], item);
      assert items == items[..|items| - 1] + [items[|items| - 1]];
    }
  }

  lemma {:induction false} UnitsNone(items: seq<Item>, item: Item)
    requires item !in items
    ensures Units(items, item) == 0
  {
    if items != [] { UnitsNone(items[..|items| - 1], item); }
  }

  lemma {:induction false} UnitsSome(items: seq<Item>, item: Item)
    requires item in items
    ensures Units(items, item) >= 1
  {
    UnitsIsMultiplicity(items, item);
  }

  /** Each listed item exists with positive stock: what the first pass of a reservation establishes. */
  predicate Available(stock: map<Item, int>, items: seq<Item>) {
    forall k :: 0 <= k < |items| ==> items[k] in stock && stock[items[k]] > 0
  }

  /** All-or-nothing multiset subtraction: what the second pass of a reservation achieves. */
  function Subtract(stock: map<Item, int>, items: seq<Item>): map<Item, int> {
    map item | item in stock :: stock[item] - Units(items, item)
  }

  /** What a release achieves; items without a row are skipped. */
  function Restore(stock: map<Item, int>, items: seq<Item>): map<Item, int> {
    map item | item in stock :: stock[item] + Units(items, item)
  }

  lemma {:induction false} UnitsAppend(items: seq<Item>, k: nat, item: Item)
    requires k < |items|
    ensures Units(items[..k + 1], item) == Units(items[..k], item) + if items[k] == item then 1 else 0
  {
    assert items[..k + 1][..k] == items[..k];
  }

  lemma {:induction false} SubtractStep(stock: map<Item, int>, items: seq<Item>, k: nat)
    requires k < |items| && items[k] in stock
    ensures var s := Subtract(stock, items[..k]); s[items[k] := s[items[k]] - 1] == Subtract(stock, items[..k + 1])
  {
    forall item | item in stock { UnitsAppend(items, k, item); }
  }

  lemma {:induction false} RestoreStep(stock: map<Item, int>, items: seq<Item>, k: nat)
    requires k < |items|
    ensures var s := Restore(stock, items[..k]);
      Restore(stock, items[..k + 1]) == if items[k] in s then s[items[k] := s[items[k]] + 1] else s
  {
    forall item | item in stock { UnitsAppend(items, k, item); }
  }

  /** An item that is available is left with at least one minus its multiplicity, so a reservation whose items are
      distinct leaves no stock negative. */
  lemma {:induction false} SubtractBound(stock: map<Item, int>, items: seq<Item>, item: Item)
    requires Available(stock, items) && item in stock
    ensures Subtract(stock, items)[item] >= 1 - Units(items, item) || Subtract(stock, items)[item] == stock[item]
  {
    if item in items {
      var k :| 0 <= k < |items| && items[k] == item;
      assert stock[items[k]] > 0;
    } else {
      UnitsNone(items, item);
    }
  }

  /** The first pass does not look at multiplicities: an admitted reservation keeps the stock non-negative exactly when
      no item is listed more often than it is in stock. */
  lemma {:induction false} OversellsIff(stock: map<Item, int>, items: seq<Item>)
    requires Available(stock, items)
    ensures (forall k :: 0 <= k < |items| ==> items[k] in stock && Subtract(stock, items)[items[k]] >= 0)
      <==> (forall k :: 0 <= k < |items| ==> items[k] in stock && Units(items, items[k]) <= stock[items[k]])
  {
    forall k | 0 <= k < |items|
      ensures Subtract(stock, items)[items[k]] >= 0 <==> Units(items, items[k]) <= stock[items[k]]
    {
    }
  }

  /** One unit of everything that is listed. */
  function OneOfEach(items: seq<Item>): map<Item, int> {
    map item | item in items :: 1
  }

  /** The bound is attained, on every list and for every item on it. */
  lemma {:induction false} BoundIsAttained(items: seq<Item>, item: Item)
    requires item in items
    ensures Available(OneOfEach(items), items) && Subtract(OneOfEach(items), items)[item] == 1 - Units(items, item)
  {
  }

  predicate KeepsNonNegative(stock: map<Item, int>, items: seq<Item>) {
    forall item :: item in stock && stock[item] >= 0 ==> Subtract(stock, items)[item] >= 0
  }

  /** No stock that admits the list is driven from non-negative to negative by it. */
  ghost predicate NeverOversells(items: seq<Item>) {
    forall stock: map<Item, int> :: Available(stock, items) ==> KeepsNonNegative(stock, items)
  }

  /** On the request alone: a list is safe for every stock exactly when it repeats no item. */
  lemma {:induction false} NeverOversellsIff(items: seq<Item>)
    ensures NeverOversells(items) <==> forall item :: Units(items, item) <= 1
  {
    if forall item :: Units(items, item) <= 1 {
      forall stock: map<Item, int> | Available(stock, items) ensures KeepsNonNegative(stock, items) {
        forall item | item in stock && stock[item] >= 0 ensures Subtract(stock, items)[item] >= 0 {
          SubtractBound(stock, items, item);
        }
      }
    } else {
      var item :| Units(items, item) > 1;
      if item !in items { UnitsNone(items, item); }
      BoundIsAttained(items, item);
      assert OneOfEach(items)[item] >= 0;
      assert !KeepsNonNegative(OneOfEach(items), items);
    }
  }

  /** The oversell happens: one unit in stock, listed twice, is admitted and leaves minus one. */
  lemma {:induction false} RepeatedItemOversells(item: Item)
    ensures Available(map[item := 1], [item, item])
    ensures Subtract(map[item := 1], [item, item])[item] == -1
  {
    var twice := [item, item];
    UnitsAppend(twice, 0, item);
    UnitsAppend(twice, 1, item);
    assert twice[..2] == twice && twice[..0] == [];
  }
}
