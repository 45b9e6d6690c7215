/** The cart line's own logic (`CartItem.tsx`): the guard on quantity edits, the argument of
    the remove button, and the truncated description. */
module CartItemView {
  import opened Wrappers
  import opened Seqs
  import opened Catalogue
  import opened CartContext

  /** The quantity change a line forwards when its field is edited: `parsed` is the result
      of `parseInt` (`None` for NaN); only a positive number is forwarded, together with the
      line's own product identifier. */
  function QuantityChange(item: CartItem, parsed: Option<int>): (r: Option<(int, int)>)
    ensures r.Some? <==> parsed.Some? && parsed.value > 0
    ensures r.Some? ==> r.value.0 == item.product.productId && r.value.1 == parsed.value
  {
    if parsed.Some? && parsed.value > 0 then Some((item.product.productId, parsed.value)) else None
  }

  /** A forwarded change never removes a line: the cart keeps its length, and the line of
      the edited product takes the new quantity. */
  lemma QuantityChangeKeepsLines(cart: seq<CartItem>, i: int, parsed: Option<int>)
    requires 0 <= i < |cart|
    requires QuantityChange(cart[i], parsed).Some?
    ensures var (id, q) := QuantityChange(cart[i], parsed).value;
      && |QuantitySet(cart, id, q)| == |cart|
      && QuantitySet(cart, id, q)[i] == cart[i].(quantity := q)
  {
  }

  /** The remove button passes on the line's own product identifier; removing through it
      drops that line and every other line for the same product, and keeps every other line. */
  lemma RemoveDropsLine(cart: seq<CartItem>, item: CartItem)
    requires item in cart
    ensures item !in Removed(cart, item.product.productId)
    ensures forall other :: other in cart && other.product.productId != item.product.productId ==>
      other in Removed(cart, item.product.productId)
    ensures |Removed(cart, item.product.productId)| < |cart|
  {
    RemovedShorter(cart, item.product.productId);
  }

  /** Filtering out a product that has a line shortens the cart. */
  lemma {:induction false} RemovedShorter(cart: seq<CartItem>, id: int)
    requires exists k :: 0 <= k < |cart| && cart[k].product.productId == id
    ensures |Removed(cart, id)| < |cart|
  {
    if cart[0].product.productId != id {
      var k :| 0 <= k < |cart| && cart[k].product.productId == id;
      assert cart[1..][k - 1] == cart[k];
      RemovedShorter(cart[1..], id);
    } else {
      assert |Removed(cart[1..], id)| <= |cart[1..]|;
    }
  }

  /** The description as shown: over 80 characters, its first 80 and "..."; otherwise
      unchanged. */
  function Truncate(s: string): (r: string)
    ensures |s| <= 80 ==> r == s
    ensures |s| > 80 ==> |r| == 83 && r[..80] == s[..80] && r[80..] == "..."
  {
    if |s| > 80 then s[..80] + "..." else s
  }
}
