/** The shopping cart (`CartContext.tsx`): an ordered list of product and quantity lines,
    one line per product, with add-or-merge, remove, set-quantity, clear, and the total and
    count reductions. */
module CartContext {
  import opened Wrappers
  import opened Seqs
  import opened Catalogue

  /** At most one line per product identifier. */
  ghost predicate UniqueProducts(cart: seq<CartItem>) {
    forall i, j :: 0 <= i < j < |cart| ==> cart[i].product.productId != cart[j].product.productId
  }

  /** Position of the first line for product `id`, or -1 (`findIndex`). */
  function IndexOfProduct(cart: seq<CartItem>, id: int): (r: int)
    ensures -1 <= r < |cart|
    ensures r == -1 <==> forall k :: 0 <= k < |cart| ==> cart[k].product.productId != id
    ensures r >= 0 ==> cart[r].product.productId == id && forall k :: 0 <= k < r ==> cart[k].product.productId != id
  {
    if cart == [] then -1
    else if cart[0].product.productId == id then 0
    else
      var r := IndexOfProduct(cart[1..], id);
      assert forall k :: 1 <= k < |cart| ==> cart[k] == cart[1..][k - 1];
      if r == -1 then -1 else r + 1
  }

  /** The cart after `addToCart(product, quantity)`: the first line for the same product
      gains `quantity` and keeps its place and its product record; without such a line, a
      new line is appended. */
  function Added(cart: seq<CartItem>, product: Product, quantity: int): (r: seq<CartItem>)
    ensures var i := IndexOfProduct(cart, product.productId);
      i >= 0 ==>
        && |r| == |cart|
        && r[i].product == cart[i].product && r[i].quantity == cart[i].quantity + quantity
        && forall k :: 0 <= k < |cart| && k != i ==> r[k] == cart[k]
    ensures IndexOfProduct(cart, product.productId) == -1 ==> r == cart + [CartItem(product, quantity)]
  {
    var i := IndexOfProduct(cart, product.productId);
    if i > -1 then cart[i := cart[i].(quantity := cart[i].quantity + quantity)]
    else cart + [CartItem(product, quantity)]
  }

  /** The cart after `removeFromCart(id)`: every line for another product, in order. */
  function Removed(cart: seq<CartItem>, id: int): (r: seq<CartItem>)
    ensures forall item :: item in r <==> item in cart && item.product.productId != id
    ensures forall item :: multiset(r)[item] == if item.product.productId != id then multiset(cart)[item] else 0
    ensures IsSubsequence(r, cart)
  {
    Filter(cart, (item: CartItem) => item.product.productId != id)
  }

  /** The cart after `updateQuantity(id, quantity)`: a quantity of 0 or less removes the
      product; otherwise every line for it takes the new quantity. */
  function QuantitySet(cart: seq<CartItem>, id: int, quantity: int): (r: seq<CartItem>)
    ensures quantity <= 0 ==> r == Removed(cart, id)
    ensures quantity > 0 ==> |r| == |cart| && forall k :: 0 <= k < |cart| ==>
      && r[k].product == cart[k].product
      && r[k].quantity == (if cart[k].product.productId == id then quantity else cart[k].quantity)
  {
    if quantity <= 0 then Removed(cart, id)
    else
      seq(|cart|, k requires 0 <= k < |cart| =>
        if cart[k].product.productId == id then cart[k].(quantity := quantity) else cart[k])
  }

  /** The number of units in the cart (`getCartCount`). */
  function CartCount(cart: seq<CartItem>): int {
    if cart == [] then 0 else cart[0].quantity + CartCount(cart[1..])
  }

  /** The price of the cart (`getCartTotal`). */
  function CartTotal(cart: seq<CartItem>): real {
    if cart == [] then 0.0 else cart[0].product.price * cart[0].quantity as real + CartTotal(cart[1..])
  }

  /** The units on lines for product `id`. */
  function QuantityOf(cart: seq<CartItem>, id: int): int {
    if cart == [] then 0
    else (if cart[0].product.productId == id then cart[0].quantity else 0) + QuantityOf(cart[1..], id)
  }

  /** Count and total add up over concatenation. */
  lemma {:induction false} SumsOfConcat(a: seq<CartItem>, b: seq<CartItem>)
    ensures CartCount(a + b) == CartCount(a) + CartCount(b)
    ensures CartTotal(a + b) == CartTotal(a) + CartTotal(b)
  {
    if a != [] {
      assert (a + b)[1..] == a[1..] + b;
      SumsOfConcat(a[1..], b);
    } else {
      assert a + b == b;
    }
  }

  /** Replacing one line changes count and total by the difference of the two lines. */
  lemma {:induction false} SumsOfUpdate(cart: seq<CartItem>, i: int, item: CartItem)
    requires 0 <= i < |cart|
    ensures CartCount(cart[i := item]) == CartCount(cart) - cart[i].quantity + item.quantity
    ensures CartTotal(cart[i := item]) ==
      CartTotal(cart) - cart[i].product.price * cart[i].quantity as real + item.product.price * item.quantity as real
  {
    if i > 0 {
      assert cart[i := item][1..] == cart[1..][i - 1 := item];
      SumsOfUpdate(cart[1..], i - 1, item);
    }
  }

  /** Adding `quantity` units raises the count by `quantity` and the total by `quantity`
      times the price on the line that receives them. */
  lemma AddRaisesCountAndTotal(cart: seq<CartItem>, product: Product, quantity: int)
    ensures CartCount(Added(cart, product, quantity)) == CartCount(cart) + quantity
    ensures var i := IndexOfProduct(cart, product.productId);
      var price := if i >= 0 then cart[i].product.price else product.price;
      CartTotal(Added(cart, product, quantity)) == CartTotal(cart) + price * quantity as real
  {
    var i := IndexOfProduct(cart, product.productId);
    if i >= 0 {
      SumsOfUpdate(cart, i, cart[i].(quantity := cart[i].quantity + quantity));
    } else {
      SumsOfConcat(cart, [CartItem(product, quantity)]);
    }
  }

  /** Removing a product lowers the count by exactly its units. */
  lemma {:induction false} RemoveLowersCount(cart: seq<CartItem>, id: int)
    ensures CartCount(Removed(cart, id)) == CartCount(cart) - QuantityOf(cart, id)
  {
    if cart != [] {
      RemoveLowersCount(cart[1..], id);
    }
  }

  /** In a cart with one line per product, the units of a product are those of its line. */
  lemma {:induction false} QuantityOfUnique(cart: seq<CartItem>, id: int)
    requires UniqueProducts(cart)
    ensures var i := IndexOfProduct(cart, id);
      QuantityOf(cart, id) == if i >= 0 then cart[i].quantity else 0
  {
    if cart != [] {
      QuantityOfUnique(cart[1..], id);
      if cart[0].product.productId == id {
        assert forall k :: 0 <= k < |cart| - 1 ==> cart[1..][k].product.productId != id;
        assert IndexOfProduct(cart[1..], id) == -1;
      }
    }
  }

  /** Adding keeps one line per product. */
  lemma AddKeepsUnique(cart: seq<CartItem>, product: Product, quantity: int)
    requires UniqueProducts(cart)
    ensures UniqueProducts(Added(cart, product, quantity))
  {
  }

  /** Removing keeps one line per product, and no line for the removed product is left. */
  lemma RemoveKeepsUnique(cart: seq<CartItem>, id: int)
    requires UniqueProducts(cart)
    ensures UniqueProducts(Removed(cart, id))
    ensures forall k :: 0 <= k < |Removed(cart, id)| ==> Removed(cart, id)[k].product.productId != id
  {
    SubsequenceKeepsUnique(Removed(cart, id), cart);
  }

  /** A subsequence of a cart with one line per product has one line per product. */
  lemma {:induction false} SubsequenceKeepsUnique(r: seq<CartItem>, cart: seq<CartItem>)
    requires IsSubsequence(r, cart) && UniqueProducts(cart)
    ensures UniqueProducts(r)
    decreases |cart|
  {
    if r != [] {
      assert cart != [];
      if r[0] == cart[0] && IsSubsequence(r[1..], cart[1..]) {
        SubsequenceKeepsUnique(r[1..], cart[1..]);
        SubsequenceElements(r[1..], cart[1..]);
        forall j | 0 < j < |r|
          ensures r[0].product.productId != r[j].product.productId
        {
          assert r[j] == r[1..][j - 1];
          assert r[j] in cart[1..];
          var k :| 0 <= k < |cart| - 1 && cart[1..][k] == r[j];
          assert cart[k + 1] == r[j];
        }
      } else {
        SubsequenceKeepsUnique(r, cart[1..]);
      }
    }
  }

  /** Every element of a subsequence is an element of the sequence. */
  lemma {:induction false} SubsequenceElements<T>(r: seq<T>, s: seq<T>)
    requires IsSubsequence(r, s)
    ensures forall x :: x in r ==> x in s
    decreases |s|
  {
    if r != [] {
      if r[0] == s[0] && IsSubsequence(r[1..], s[1..]) {
        SubsequenceElements(r[1..], s[1..]);
        assert forall x :: x in r ==> x == r[0] || x in r[1..];
      } else {
        SubsequenceElements(r, s[1..]);
      }
    }
  }

  /** Setting a quantity keeps one line per product. */
  lemma SetQuantityKeepsUnique(cart: seq<CartItem>, id: int, quantity: int)
    requires UniqueProducts(cart)
    ensures UniqueProducts(QuantitySet(cart, id, quantity))
  {
    if quantity <= 0 {
      RemoveKeepsUnique(cart, id);
    }
  }

  /** `addToCart`'s updater as written: `[...prevCart]` copies the list but not its lines,
      so `quantity +=` on the merged line changes that line in the previous state too. The
      result is the previous state as the increment leaves it, then the new state. */
  function AddedInPlace(prev: seq<CartItem>, product: Product, quantity: int): (r: (seq<CartItem>, seq<CartItem>))
    ensures r.1 == Added(prev, product, quantity)
    ensures IndexOfProduct(prev, product.productId) >= 0 ==> r.0 == r.1
    ensures IndexOfProduct(prev, product.productId) == -1 ==> r.0 == prev
  {
    var i := IndexOfProduct(prev, product.productId);
    if i > -1 then
      var line := prev[i].(quantity := prev[i].quantity + quantity);
      (prev[i := line], prev[i := line])
    else (prev, prev + [CartItem(product, quantity)])
  }

  /** Run twice on the same previous state, as React's strict mode runs state updaters in
      development, the updater as written adds `quantity` twice to a product already in the
      cart: the second run sees the line the first run changed. */
  lemma StrictModeAddsTwice(prev: seq<CartItem>, product: Product, quantity: int)
    requires IndexOfProduct(prev, product.productId) >= 0
    ensures var i := IndexOfProduct(prev, product.productId);
      var second := AddedInPlace(AddedInPlace(prev, product, quantity).0, product, quantity).1;
      && CartCount(second) == CartCount(prev) + 2 * quantity
      && second[i].quantity == prev[i].quantity + 2 * quantity
  {
    var id := product.productId;
    var i := IndexOfProduct(prev, id);
    var mid := AddedInPlace(prev, product, quantity).0;
    AddRaisesCountAndTotal(prev, product, quantity);
    assert IndexOfProduct(mid, id) == i by {
      assert forall k :: 0 <= k < |mid| ==> mid[k].product == prev[k].product;
    }
    AddRaisesCountAndTotal(mid, product, quantity);
  }

  /** One line with one unit, added once more: strict mode leaves three units where two
      were meant. */
  lemma StrictModeAddExample(product: Product)
    ensures var prev := [CartItem(product, 1)];
      && AddedInPlace(AddedInPlace(prev, product, 1).0, product, 1).1 == [CartItem(product, 3)]
      && Added(prev, product, 1) == [CartItem(product, 2)]
  {
    StrictModeAddsTwice([CartItem(product, 1)], product, 1);
  }

  /** Adding raises the units of the added product by exactly `quantity` and leaves the
      units of every other product as they were. */
  lemma AddRaisesQuantityOf(cart: seq<CartItem>, product: Product, quantity: int, id: int)
    ensures QuantityOf(Added(cart, product, quantity), id) ==
      QuantityOf(cart, id) + (if id == product.productId then quantity else 0)
  {
    var i := IndexOfProduct(cart, product.productId);
    if i >= 0 {
      QuantityOfUpdate(cart, i, cart[i].(quantity := cart[i].quantity + quantity), id);
    } else {
      QuantityOfConcat(cart, [CartItem(product, quantity)], id);
    }
  }

  /** The units of a product add up over concatenation. */
  lemma {:induction false} QuantityOfConcat(a: seq<CartItem>, b: seq<CartItem>, id: int)
    ensures QuantityOf(a + b, id) == QuantityOf(a, id) + QuantityOf(b, id)
  {
    if a != [] {
      assert (a + b)[1..] == a[1..] + b;
      QuantityOfConcat(a[1..], b, id);
    } else {
      assert a + b == b;
    }
  }

  /** Replacing one line changes the units of a product by the difference of the two lines. */
  lemma {:induction false} QuantityOfUpdate(cart: seq<CartItem>, i: int, item: CartItem, id: int)
    requires 0 <= i < |cart|
    ensures QuantityOf(cart[i := item], id) ==
      QuantityOf(cart, id) - (if cart[i].product.productId == id then cart[i].quantity else 0)
        + (if item.product.productId == id then item.quantity else 0)
  {
    if i > 0 {
      assert cart[i := item][1..] == cart[1..][i - 1 := item];
      QuantityOfUpdate(cart[1..], i - 1, item, id);
    }
  }

  /** The cart itself: the state cell that the provider replaces on every change. */
  class Cart {
    var items: seq<CartItem>

    /** One line per product; every operation keeps this. */
    ghost predicate Valid()
      reads this
    {
      UniqueProducts(items)
    }

    /** The cart starts empty. */
    constructor ()
      ensures items == [] && Valid()
    {
      items := [];
    }

    /** `addToCart(product, quantity)`, quantity 1 by default. */
    method AddToCart(product: Product, quantity: int := 1)
      modifies this
      ensures items == Added(old(items), product, quantity)
      ensures old(Valid()) ==> Valid()
    {
      if Valid() {
        AddKeepsUnique(items, product, quantity);
      }
      var index := IndexOfProduct(items, product.productId);
      if index > -1 {
        items := items[index := items[index].(quantity := items[index].quantity + quantity)];
      } else {
        items := items + [CartItem(product, quantity)];
      }
    }

    /** `removeFromCart(id)`. */
    method RemoveFromCart(productId: int)
      modifies this
      ensures items == Removed(old(items), productId)
      ensures old(Valid()) ==> Valid()
    {
      if Valid() {
        RemoveKeepsUnique(items, productId);
      }
      items := Removed(items, productId);
    }

    /** `updateQuantity(id, quantity)`: a quantity of 0 or less removes the product. */
    method UpdateQuantity(productId: int, quantity: int)
      modifies this
      ensures items == QuantitySet(old(items), productId, quantity)
      ensures old(Valid()) ==> Valid()
    {
      if quantity <= 0 {
        RemoveFromCart(productId);
        return;
      }
      if Valid() {
        SetQuantityKeepsUnique(items, productId, quantity);
      }
      items := seq(|items|, k requires 0 <= k < |items| reads this =>
        if items[k].product.productId == productId then items[k].(quantity := quantity) else items[k]);
    }

    /** `clearCart`: the empty cart, with count and total zero. */
    method ClearCart()
      modifies this
      ensures items == [] && Valid()
      ensures CartCount(items) == 0 && CartTotal(items) == 0.0
    {
      items := [];
    }

    /** `getCartTotal`. */
    method GetCartTotal() returns (total: real)
      ensures total == CartTotal(items)
    {
      total := CartTotal(items);
    }

    /** `getCartCount`. */
    method GetCartCount() returns (count: int)
      ensures count == CartCount(items)
    {
      count := CartCount(items);
    }
  }
}
