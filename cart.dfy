/** The shopping-cart page: a list of cart lines that the quantity buttons
    and the remove button replace, and the totals derived from it. */
module Cart {
  import opened Wrappers
  import opened Types
  import opened Seqs

  function Max(a: int, b: int): int
  {
    if a < b then b else a
  }

  /** The amount shown beside a line: unit price times quantity. */
  function LineTotal(item: CartItem): int
  {
    item.product.price * item.quantity
  }

  /** The sum of the line totals of `items`. */
  function Total(items: seq<CartItem>): int
    decreases |items|
  {
    if items == [] then 0 else LineTotal(items[0]) + Total(items[1..])
  }

  /** The sum of the unit prices of `items` (each line counted once). */
  function UnitPriceSum(items: seq<CartItem>): int
    decreases |items|
  {
    if items == [] then 0 else items[0].product.price + UnitPriceSum(items[1..])
  }

  /** Every line holds at least one unit. */
  ghost predicate QuantitiesPositive(items: seq<CartItem>)
  {
    forall i :: 0 <= i < |items| ==> items[i].quantity >= 1
  }

  function HasId(id: string): CartItem -> bool
  {
    (item: CartItem) => item.id == id
  }

  function HasOtherId(id: string): CartItem -> bool
  {
    (item: CartItem) => item.id != id
  }

  /** The per-line step of `updateQuantity`: lines with the given id get
      `Math.max(1, quantity + change)`, other lines are returned as they are. */
  function Adjust(id: string, change: int): CartItem -> CartItem
  {
    (item: CartItem) => if item.id == id then item.(quantity := Max(1, item.quantity + change)) else item
  }

  /** The cart after `updateQuantity(id, change)`. */
  function UpdatedQuantities(items: seq<CartItem>, id: string, change: int): (r: seq<CartItem>)
    ensures |r| == |items|
    ensures forall i :: 0 <= i < |items| && items[i].id == id ==>
              r[i] == items[i].(quantity := Max(1, items[i].quantity + change)) && r[i].quantity >= 1
    ensures forall i :: 0 <= i < |items| && items[i].id != id ==> r[i] == items[i]
    ensures (forall i :: 0 <= i < |items| ==> items[i].id != id) ==> r == items
  {
    Map(items, Adjust(id, change))
  }

  /** The cart after `removeItem(id)`: the lines with other ids, in their original order. */
  function WithoutItem(items: seq<CartItem>, id: string): (r: seq<CartItem>)
    ensures forall i :: 0 <= i < |r| ==> r[i].id != id
    ensures forall i :: 0 <= i < |items| && items[i].id != id ==> items[i] in r
    ensures forall i :: 0 <= i < |r| ==> r[i] in items
    ensures Subsequence(r, items)
    ensures forall x :: multiset(r)[x] == if x.id != id then multiset(items)[x] else 0
    ensures |r| + |Filter(items, HasId(id))| == |items|
  {
    FilterMultiplicity(items, HasOtherId(id));
    FilterComplement(items, HasOtherId(id), HasId(id));
    Filter(items, HasOtherId(id))
  }

  /** `cartItems.length > 0 ? cart : empty-cart view`: whether the page shows its empty-cart view. */
  function ShowsEmptyCart(items: seq<CartItem>): bool
  {
    !(|items| > 0)
  }

  /** The quantity buttons never empty the cart or fill an empty one. */
  lemma UpdateKeepsEmptiness(items: seq<CartItem>, id: string, change: int)
    ensures ShowsEmptyCart(UpdatedQuantities(items, id, change)) == ShowsEmptyCart(items)
  {
  }

  /** Removing an id empties the cart exactly when every line carries that id. */
  lemma RemoveEmptiesCart(items: seq<CartItem>, id: string)
    ensures ShowsEmptyCart(WithoutItem(items, id)) <==> forall i :: 0 <= i < |items| ==> items[i].id == id
  {
  }

  /** The empty-cart view always goes with a total of zero. */
  lemma EmptyCartTotalsZero(items: seq<CartItem>)
    ensures ShowsEmptyCart(items) ==> Total(items) == 0
  {
  }

  /** Adjusting quantities keeps every line at one unit or more. */
  lemma UpdateKeepsQuantitiesPositive(items: seq<CartItem>, id: string, change: int)
    requires QuantitiesPositive(items)
    ensures QuantitiesPositive(UpdatedQuantities(items, id, change))
  {
  }

  /** Removing a line keeps every remaining line at one unit or more. */
  lemma RemoveKeepsQuantitiesPositive(items: seq<CartItem>, id: string)
    requires QuantitiesPositive(items)
    ensures QuantitiesPositive(WithoutItem(items, id))
  {
  }

  /** Removing the same id twice leaves the same cart as removing it once. */
  lemma {:induction false} RemoveIdempotent(items: seq<CartItem>, id: string)
    ensures WithoutItem(WithoutItem(items, id), id) == WithoutItem(items, id)
  {
    FilterIdempotent(items, HasOtherId(id));
  }

  /** Removing an id no line carries leaves the cart unchanged. */
  lemma {:induction false} RemoveUnknownIsNoOp(items: seq<CartItem>, id: string)
    requires forall i :: 0 <= i < |items| ==> items[i].id != id
    ensures WithoutItem(items, id) == items
  {
    FilterKeepsAll(items, HasOtherId(id));
  }

  /** The total of a concatenation is the sum of the totals. */
  lemma {:induction false} TotalAppend(a: seq<CartItem>, b: seq<CartItem>)
    ensures Total(a + b) == Total(a) + Total(b)
    decreases |a|
  {
    if a == [] {
      assert a + b == b;
    } else {
      assert (a + b)[0] == a[0] && (a + b)[1..] == a[1..] + b;
      TotalAppend(a[1..], b);
    }
  }

  /** Removing a line takes exactly its line total off the grand total: the
      total splits into the lines that stay and the lines that go. */
  lemma {:induction false} TotalSplitsOnRemove(items: seq<CartItem>, id: string)
    ensures Total(items) == Total(WithoutItem(items, id)) + Total(Filter(items, HasId(id)))
    decreases |items|
  {
    if items != [] {
      TotalSplitsOnRemove(items[1..], id);
    }
  }

  /** Raising a quantity by `change >= 0` on a well-formed cart raises the
      total by `change` units of every line with that id. */
  lemma {:induction false} TotalAfterIncrease(items: seq<CartItem>, id: string, change: int)
    requires QuantitiesPositive(items)
    requires change >= 0
    ensures Total(UpdatedQuantities(items, id, change))
            == Total(items) + change * UnitPriceSum(Filter(items, HasId(id)))
    decreases |items|
  {
    if items != [] {
      var r := UpdatedQuantities(items, id, change);
      var rest := Filter(items[1..], HasId(id));
      var u := UnitPriceSum(rest);
      assert QuantitiesPositive(items[1..]);
      TotalAfterIncrease(items[1..], id, change);
      assert r[1..] == UpdatedQuantities(items[1..], id, change);
      assert r[0] == Adjust(id, change)(items[0]);
      LineAfterIncrease(items[0], id, change);
      if items[0].id == id {
        var p := items[0].product.price;
        assert Filter(items, HasId(id)) == [items[0]] + rest;
        assert ([items[0]] + rest)[1..] == rest;
        assert UnitPriceSum([items[0]] + rest) == p + u;
        Distribute(change, p, u);
      } else {
        assert Filter(items, HasId(id)) == rest;
      }
    }
  }

  /** One line's share of `TotalAfterIncrease`. */
  lemma LineAfterIncrease(item: CartItem, id: string, change: int)
    requires item.quantity >= 1 && change >= 0
    ensures LineTotal(Adjust(id, change)(item))
            == LineTotal(item) + (if item.id == id then change * item.product.price else 0)
  {
    if item.id == id {
      Distribute(item.product.price, item.quantity, change);
      assert LineTotal(Adjust(id, change)(item)) == item.product.price * (item.quantity + change);
    }
  }

  lemma Distribute(a: int, b: int, c: int)
    ensures a * (b + c) == a * b + a * c
  {
  }

  /** With non-negative prices, a well-formed cart never totals below zero. */
  lemma {:induction false} TotalNonNegative(items: seq<CartItem>)
    requires QuantitiesPositive(items)
    requires forall i :: 0 <= i < |items| ==> items[i].product.price >= 0
    ensures Total(items) >= 0
    decreases |items|
  {
    if items != [] {
      TotalNonNegative(items[1..]);
    }
  }

  const Backpack: Product := Product(
    "1", "user1", "Vintage Leather Backpack", "Beautiful handcrafted leather backpack",
    Clothing, 4500, ["/api/placeholder/100/100"], LikeNew, Some("San Francisco, CA"), 0, 0, false)

  const BambooSet: Product := Product(
    "2", "user2", "Bamboo Kitchen Set", "Eco-friendly bamboo kitchen utensils",
    HomeGarden, 2850, ["/api/placeholder/100/100"], New, Some("Portland, OR"), 0, 0, false)

  /** The cart the page starts with. */
  const SeedCart: seq<CartItem> := [
    CartItem("1", "1", Backpack, 1, 0),
    CartItem("2", "2", BambooSet, 2, 0)
  ]

  /** The seed cart totals 45.00 x 1 + 28.50 x 2 = 102.00, and an empty cart totals 0. */
  lemma SeedCartTotal()
    ensures Total(SeedCart) == 10200
    ensures LineTotal(SeedCart[1]) == 5700
    ensures Total([]) == 0
    ensures !ShowsEmptyCart(SeedCart)
  {
    assert SeedCart[1..][1..] == [];
    assert Total(SeedCart[1..]) == LineTotal(SeedCart[1]);
  }

  /** The cart page's state: `cartItems`, replaced wholesale by each handler. */
  class CartPage {
    var cartItems: seq<CartItem>

    ghost predicate Valid()
      reads this
    {
      QuantitiesPositive(cartItems)
    }

    constructor ()
      ensures Valid()
      ensures cartItems == SeedCart
    {
      cartItems := SeedCart;
    }

    /** The `-`/`+` buttons: `updateQuantity(id, change)`. */
    method UpdateQuantity(id: string, change: int)
      requires Valid()
      modifies this
      ensures Valid()
      ensures cartItems == UpdatedQuantities(old(cartItems), id, change)
    {
      cartItems := UpdatedQuantities(cartItems, id, change);
    }

    /** The trash button: `removeItem(id)`. */
    method RemoveItem(id: string)
      requires Valid()
      modifies this
      ensures Valid()
      ensures cartItems == WithoutItem(old(cartItems), id)
    {
      cartItems := WithoutItem(cartItems, id);
    }

    /** `calculateTotal`: the `reduce` that adds up the line totals from left to right. */
    method CalculateTotal() returns (total: int)
      ensures total == Total(cartItems)
    {
      total := 0;
      var i := 0;
      while i < |cartItems|
        invariant 0 <= i <= |cartItems|
        invariant total == Total(cartItems[..i])
      {
        assert cartItems[..i + 1] == cartItems[..i] + [cartItems[i]];
        TotalAppend(cartItems[..i], [cartItems[i]]);
        total := total + LineTotal(cartItems[i]);
        i := i + 1;
      }
      assert cartItems[..i] == cartItems;
    }
  }
}
