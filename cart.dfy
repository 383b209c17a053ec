/**
 * The cart's line-item list and the pure list transforms behind `addItem`,
 * `removeItem`, `updateQuantity`, `getTotalItems` and `getTotalPrice`
 * (contexts/CartContext.tsx). Prices are whole cents, so totals are exact.
 */
module Cart {
  import opened Wrappers
  import Seqs

  /** A line item. Quantities are plain integers: a restored cart is adopted without validation. */
  datatype CartItem = CartItem(
    id: string, name: string, price: int, image: Option<string>, quantity: int, slug: Option<string>)

  /** What `addItem` is given: a line item without its quantity. */
  datatype NewItem = NewItem(id: string, name: string, price: int, image: Option<string>, slug: Option<string>)

  /** `{ ...item, quantity }`. */
  function WithQuantity(item: NewItem, quantity: int): CartItem
  {
    CartItem(item.id, item.name, item.price, item.image, quantity, item.slug)
  }

  /** Some entry carries `id`. */
  predicate HasId(items: seq<CartItem>, id: string)
  {
    exists k :: 0 <= k < |items| && items[k].id == id
  }

  /** No two entries share an id: the invariant the cart operations keep. */
  predicate DistinctIds(items: seq<CartItem>)
  {
    forall i, j :: 0 <= i < j < |items| ==> items[i].id != items[j].id
  }

  /** `items.find(i => i.id === id)`: the first entry carrying `id`, if any. */
  function Find(items: seq<CartItem>, id: string): (r: Option<CartItem>)
    ensures r.Some? <==> HasId(items, id)
    ensures r.Some? ==> exists k :: 0 <= k < |items| && items[k] == r.value && r.value.id == id
                                   && forall j :: 0 <= j < k ==> items[j].id != id
    decreases |items|
  {
    if items == [] then None
    else if items[0].id == id then Some(items[0])
    else
      Find(items[1..], id)
  }

  /** `items.map(i => i.id === id ? { ...i, quantity: i.quantity + 1 } : i)`. */
  function IncrementWhere(items: seq<CartItem>, id: string): (r: seq<CartItem>)
    ensures |r| == |items|
    ensures forall k :: 0 <= k < |items| ==>
      r[k] == if items[k].id == id then items[k].(quantity := items[k].quantity + 1) else items[k]
    decreases |items|
  {
    if items == [] then []
    else
      var head := if items[0].id == id then items[0].(quantity := items[0].quantity + 1) else items[0];
      [head] + IncrementWhere(items[1..], id)
  }

  /** `items.map(i => i.id === id ? { ...i, quantity } : i)`. */
  function SetQuantityWhere(items: seq<CartItem>, id: string, quantity: int): (r: seq<CartItem>)
    ensures |r| == |items|
    ensures forall k :: 0 <= k < |items| ==>
      r[k] == if items[k].id == id then items[k].(quantity := quantity) else items[k]
    decreases |items|
  {
    if items == [] then []
    else
      var head := if items[0].id == id then items[0].(quantity := quantity) else items[0];
      [head] + SetQuantityWhere(items[1..], id, quantity)
  }

  /**
   * `addItem`: an id already present has its quantity raised by one in place
   * (every entry carrying it, nothing else); a new id is appended with quantity 1.
   */
  function AddItem(items: seq<CartItem>, item: NewItem): (r: seq<CartItem>)
    ensures HasId(items, item.id) ==>
      |r| == |items| &&
      forall k :: 0 <= k < |items| ==>
        r[k] == if items[k].id == item.id then items[k].(quantity := items[k].quantity + 1) else items[k]
    ensures !HasId(items, item.id) ==> |r| == |items| + 1 && r[..|items|] == items && r[|items|] == WithQuantity(item, 1)
  {
    if Find(items, item.id).Some? then IncrementWhere(items, item.id)
    else items + [WithQuantity(item, 1)]
  }

  /** `items.filter(i => i.id !== id)`. */
  function RemoveItem(items: seq<CartItem>, id: string): (r: seq<CartItem>)
    ensures Seqs.IsSubseq(r, items)
    ensures forall x :: multiset(r)[x] == if x.id != id then multiset(items)[x] else 0
    ensures !HasId(r, id)
    ensures !HasId(items, id) ==> r == items
  {
    var keep := (i: CartItem) => i.id != id;
    var r := Seqs.Filter(keep, items);
    Seqs.FilterMembership(keep, items);
    FilterAbsent(keep, items, id);
    assert forall k :: 0 <= k < |r| ==> r[k] in r;
    r
  }

  /** Filtering out an id no entry carries keeps the list as it is. */
  lemma FilterAbsent(keep: CartItem -> bool, items: seq<CartItem>, id: string)
    requires forall i :: keep(i) == (i.id != id)
    ensures !HasId(items, id) ==> Seqs.Filter(keep, items) == items
  {
    if !HasId(items, id) {
      Seqs.FilterKeepsAll(keep, items);
    }
  }

  /**
   * `updateQuantity`: a quantity of zero or less removes the id; otherwise every
   * entry carrying the id gets that quantity, and no entry is created or dropped.
   */
  function UpdateQuantity(items: seq<CartItem>, id: string, quantity: int): (r: seq<CartItem>)
    ensures quantity <= 0 ==> r == RemoveItem(items, id)
    ensures quantity > 0 ==>
      |r| == |items| &&
      forall k :: 0 <= k < |items| ==>
        r[k].id == items[k].id &&
        r[k] == if items[k].id == id then items[k].(quantity := quantity) else items[k]
  {
    if quantity <= 0 then RemoveItem(items, id) else SetQuantityWhere(items, id, quantity)
  }

  /** `getTotalItems`: the sum of the quantities; with every quantity at least one, at least one per entry. */
  function TotalItems(items: seq<CartItem>): (n: int)
    ensures PositiveQuantities(items) ==> n >= |items|
    ensures items == [] ==> n == 0
    decreases |items|
  {
    if items == [] then 0 else items[0].quantity + TotalItems(items[1..])
  }

  /** No entry has a negative price or quantity. */
  predicate NonNegativeLines(items: seq<CartItem>)
  {
    forall k :: 0 <= k < |items| ==> items[k].price >= 0 && items[k].quantity >= 0
  }

  /** `getTotalPrice`: the sum of price times quantity. */
  function TotalPrice(items: seq<CartItem>): (total: int)
    ensures items == [] ==> total == 0
    decreases |items|
  {
    if items == [] then 0 else items[0].price * items[0].quantity + TotalPrice(items[1..])
  }

  /** The price total is never negative when no price or quantity is. */
  lemma {:induction false} TotalPriceNonNegative(items: seq<CartItem>)
    requires NonNegativeLines(items)
    ensures TotalPrice(items) >= 0
    decreases |items|
  {
    if items != [] {
      assert NonNegativeLines(items[1..]) by {
        forall k | 0 <= k < |items| - 1 ensures items[1..][k].price >= 0 && items[1..][k].quantity >= 0 {
          assert items[1..][k] == items[k + 1];
        }
      }
      TotalPriceNonNegative(items[1..]);
      Product(items[0].price, items[0].quantity);
    }
  }

  /** The product of two non-negative numbers is non-negative. */
  lemma Product(a: int, b: int)
    requires a >= 0 && b >= 0
    ensures a * b >= 0
  {
  }

  /** The number of entries carrying `id`. */
  function Occurrences(items: seq<CartItem>, id: string): (n: nat)
    ensures n <= |items|
    ensures n == 0 <==> !HasId(items, id)
    decreases |items|
  {
    if items == [] then 0
    else
      var rest := Occurrences(items[1..], id);
      assert HasId(items[1..], id) ==> HasId(items, id) by {
        if HasId(items[1..], id) {
          var k :| 0 <= k < |items| - 1 && items[1..][k].id == id;
          assert items[k + 1].id == id;
        }
      }
      (if items[0].id == id then 1 else 0) + rest
  }

  /** The summed unit prices of the entries carrying `id`. */
  function PriceOfId(items: seq<CartItem>, id: string): int
    decreases |items|
  {
    if items == [] then 0 else (if items[0].id == id then items[0].price else 0) + PriceOfId(items[1..], id)
  }

  /** Raising every entry carrying `id` by one adds one unit per such entry to the item count. */
  lemma {:induction false} IncrementTotalItems(items: seq<CartItem>, id: string)
    ensures TotalItems(IncrementWhere(items, id)) == TotalItems(items) + Occurrences(items, id)
    decreases |items|
  {
    if items != [] {
      var r := IncrementWhere(items, id);
      assert r == [r[0]] + IncrementWhere(items[1..], id);
      IncrementTotalItems(items[1..], id);
    }
  }

  /** Raising every entry carrying `id` by one adds each such entry's price once to the total price. */
  lemma {:induction false} IncrementTotalPrice(items: seq<CartItem>, id: string)
    ensures TotalPrice(IncrementWhere(items, id)) == TotalPrice(items) + PriceOfId(items, id)
    decreases |items|
  {
    if items != [] {
      var r, rest := IncrementWhere(items, id), IncrementWhere(items[1..], id);
      var e := items[0];
      assert r[1..] == rest;
      assert TotalPrice(r) == r[0].price * r[0].quantity + TotalPrice(rest);
      IncrementTotalPrice(items[1..], id);
      Distribute(e.price, e.quantity);
    }
  }

  /** One more unit of an entry adds its price once. */
  lemma Distribute(price: int, quantity: int)
    ensures price * (quantity + 1) == price * quantity + price
  {
  }

  /** Under distinct ids an id occurs at most once, and then its price is that entry's price. */
  lemma {:induction false} DistinctOccurrences(items: seq<CartItem>, id: string)
    requires DistinctIds(items)
    ensures Occurrences(items, id) <= 1
    ensures Find(items, id).Some? ==> Occurrences(items, id) == 1 && PriceOfId(items, id) == Find(items, id).value.price
    decreases |items|
  {
    if items != [] {
      assert DistinctIds(items[1..]);
      DistinctOccurrences(items[1..], id);
      if items[0].id == id {
        assert !HasId(items[1..], id);
        PriceOfAbsent(items[1..], id);
      }
    }
  }

  /** An absent id contributes no price. */
  lemma {:induction false} PriceOfAbsent(items: seq<CartItem>, id: string)
    requires !HasId(items, id)
    ensures PriceOfId(items, id) == 0
    decreases |items|
  {
    if items != [] {
      assert items[0].id != id;
      PriceOfAbsent(items[1..], id);
    }
  }

  /** The totals of a concatenation are the sums of the totals. */
  lemma {:induction false} TotalsAppend(a: seq<CartItem>, b: seq<CartItem>)
    ensures TotalItems(a + b) == TotalItems(a) + TotalItems(b)
    ensures TotalPrice(a + b) == TotalPrice(a) + TotalPrice(b)
    decreases |a|
  {
    if a != [] {
      assert (a + b)[1..] == a[1..] + b;
      TotalsAppend(a[1..], b);
    } else {
      assert a + b == b;
    }
  }

  /**
   * On a cart with distinct ids, `addItem` adds exactly one unit, priced at the
   * stored entry's price when the id is present and at the new item's price otherwise.
   */
  lemma AddItemTotals(items: seq<CartItem>, item: NewItem)
    requires DistinctIds(items)
    ensures TotalItems(AddItem(items, item)) == TotalItems(items) + 1
    ensures TotalPrice(AddItem(items, item)) ==
      TotalPrice(items) + match Find(items, item.id) { case Some(e) => e.price case None => item.price }
  {
    if Find(items, item.id).Some? {
      IncrementTotalItems(items, item.id);
      IncrementTotalPrice(items, item.id);
      DistinctOccurrences(items, item.id);
    } else {
      TotalsAppend(items, [WithQuantity(item, 1)]);
    }
  }

  /** `addItem` keeps ids distinct. */
  lemma AddItemKeepsDistinct(items: seq<CartItem>, item: NewItem)
    requires DistinctIds(items)
    ensures DistinctIds(AddItem(items, item))
  {
    var r := AddItem(items, item);
    if !HasId(items, item.id) {
      forall i, j | 0 <= i < j < |r| ensures r[i].id != r[j].id {
        if j == |items| {
          assert r[i] == items[i];
        } else {
          assert r[i] == items[i] && r[j] == items[j];
        }
      }
    }
  }

  /** `removeItem` keeps ids distinct. */
  lemma RemoveItemKeepsDistinct(items: seq<CartItem>, id: string)
    requires DistinctIds(items)
    ensures DistinctIds(RemoveItem(items, id))
  {
    SubseqKeepsDistinct(RemoveItem(items, id), items);
  }

  /** `updateQuantity` keeps ids distinct. */
  lemma UpdateQuantityKeepsDistinct(items: seq<CartItem>, id: string, quantity: int)
    requires DistinctIds(items)
    ensures DistinctIds(UpdateQuantity(items, id, quantity))
  {
    if quantity <= 0 {
      RemoveItemKeepsDistinct(items, id);
    }
  }

  /** A subsequence of a list with distinct ids has distinct ids. */
  lemma {:induction false} SubseqKeepsDistinct(a: seq<CartItem>, b: seq<CartItem>)
    requires Seqs.IsSubseq(a, b) && DistinctIds(b)
    ensures DistinctIds(a)
    ensures forall x :: x in a ==> x in b
    decreases |b|
  {
    if a != [] {
      assert DistinctIds(b[1..]);
      if a[0] == b[0] && Seqs.IsSubseq(a[1..], b[1..]) {
        SubseqKeepsDistinct(a[1..], b[1..]);
        forall j | 0 < j < |a| ensures a[0].id != a[j].id {
          assert a[j] in a[1..];
          var k :| 0 <= k < |b| - 1 && b[1..][k] == a[j];
          assert b[k + 1] == a[j];
        }
        forall i, j | 0 <= i < j < |a| ensures a[i].id != a[j].id {
          if i > 0 {
            assert a[1..][i - 1] == a[i] && a[1..][j - 1] == a[j];
          }
        }
        forall x | x in a ensures x in b {
          if x != a[0] {
            assert x in a[1..];
          }
        }
      } else {
        SubseqKeepsDistinct(a, b[1..]);
      }
    }
  }

  /** Every entry has a quantity of at least one. */
  predicate PositiveQuantities(items: seq<CartItem>)
  {
    forall k :: 0 <= k < |items| ==> items[k].quantity >= 1
  }

  /** `addItem` never leaves an entry with a quantity below one. */
  lemma AddItemKeepsPositive(items: seq<CartItem>, item: NewItem)
    requires PositiveQuantities(items)
    ensures PositiveQuantities(AddItem(items, item))
  {
    var r := AddItem(items, item);
    if !HasId(items, item.id) {
      forall k | 0 <= k < |r| ensures r[k].quantity >= 1 {
        if k < |items| {
          assert r[k] == r[..|items|][k];
        }
      }
    }
  }

  /** `removeItem` only drops entries, so every quantity left is still at least one. */
  lemma RemoveItemKeepsPositive(items: seq<CartItem>, id: string)
    requires PositiveQuantities(items)
    ensures PositiveQuantities(RemoveItem(items, id))
  {
    var r := RemoveItem(items, id);
    forall k | 0 <= k < |r| ensures r[k].quantity >= 1 {
      assert multiset(r)[r[k]] > 0;
      assert r[k] in multiset(items);
    }
  }

  /** `updateQuantity` never leaves an entry with a quantity below one. */
  lemma UpdateQuantityKeepsPositive(items: seq<CartItem>, id: string, quantity: int)
    requires PositiveQuantities(items)
    ensures PositiveQuantities(UpdateQuantity(items, id, quantity))
  {
    if quantity <= 0 {
      RemoveItemKeepsPositive(items, id);
    }
  }

  /** `addItem` applied `n` times. */
  function AddTimes(items: seq<CartItem>, item: NewItem, n: nat): seq<CartItem>
    decreases n
  {
    if n == 0 then items else AddItem(AddTimes(items, item, n - 1), item)
  }

  /** Adding the same item `n >= 1` times to an empty cart gives one entry of quantity `n`. */
  lemma {:induction false} AddTimesFromEmpty(item: NewItem, n: nat)
    requires n >= 1
    ensures AddTimes([], item, n) == [WithQuantity(item, n)]
    decreases n
  {
    if n > 1 {
      AddTimesFromEmpty(item, n - 1);
      var before := [WithQuantity(item, n - 1)];
      assert HasId(before, item.id) by { assert before[0].id == item.id; }
      var after := AddItem(before, item);
      assert after[0] == WithQuantity(item, n);
    }
  }
}
