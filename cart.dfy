/**
 * The cart page: its order summary (which must agree with checkout), the
 * requests its buttons send to the cart store, and where "Proceed to
 * Checkout" leads.
 */
module Cart {
  import opened Types
  import CartStore
  import Checkout

  const CheckoutPath: string := "/checkout"

  /** The shipping line of the cart's summary: 'Free' from 999 rupees, else 99. */
  function ShippingShown(totalPrice: int): (line: Checkout.ShippingLine)
    ensures line == Checkout.ShippingShown(totalPrice)
    ensures line == Checkout.Free <==> Checkout.ShippingCost(totalPrice) == 0
  {
    if totalPrice >= 999 then Checkout.Free else Checkout.Fee(99)
  }

  /** The cart's total is the total checkout charges. */
  function TotalShown(totalPrice: int): (total: int)
    ensures total == Checkout.FinalTotal(totalPrice)
  {
    totalPrice + (if totalPrice >= 999 then 0 else 99)
  }

  /** What the page shows: the empty-cart state, or the lines and the summary. */
  datatype View =
    | EmptyCart
    | Summary(lines: seq<CartItem>, subtotal: int, shipping: Checkout.ShippingLine, total: int)

  function Render(items: seq<CartItem>, totalPrice: int): (view: View)
    ensures view.EmptyCart? <==> items == []
    ensures view.Summary? ==>
      && view.lines == items
      && view.subtotal == totalPrice
      && view.shipping == Checkout.ShippingShown(totalPrice)
      && view.total == Checkout.FinalTotal(totalPrice)
  {
    if |items| == 0 then EmptyCart
    else Summary(items, totalPrice, ShippingShown(totalPrice), TotalShown(totalPrice))
  }

  /** The minus button asks for one less of that line. */
  function MinusPressed(item: CartItem): (request: CartStore.Request)
    ensures request.UpdateQuantity?
    ensures request.key == CartStore.KeyOf(item) && request.quantity + 1 == item.quantity
  {
    CartStore.UpdateQuantity(CartStore.LineKey(item.product.id, item.size), item.quantity - 1)
  }

  /** The plus button asks for one more of that line. */
  function PlusPressed(item: CartItem): (request: CartStore.Request)
    ensures request.UpdateQuantity?
    ensures request.key == CartStore.KeyOf(item) && request.quantity == item.quantity + 1
  {
    CartStore.UpdateQuantity(CartStore.LineKey(item.product.id, item.size), item.quantity + 1)
  }

  /** The trash button asks to delete the line by the key it is rendered under. */
  function RemovePressed(item: CartItem): (request: CartStore.Request)
    ensures request.RemoveFromCart? && request.key == CartStore.KeyOf(item)
  {
    CartStore.RemoveFromCart(CartStore.LineKey(item.product.id, item.size))
  }

  /**
   * In a cart whose keys are distinct, the buttons of one line address that
   * line and no other.
   */
  lemma ButtonsAddressOwnLine(items: seq<CartItem>, i: nat, j: nat)
    requires CartStore.DistinctKeys(items)
    requires i < |items| && j < |items| && i != j
    ensures MinusPressed(items[i]).key != CartStore.KeyOf(items[j])
    ensures PlusPressed(items[i]).key != CartStore.KeyOf(items[j])
    ensures RemovePressed(items[i]).key != CartStore.KeyOf(items[j])
  {
  }

  /** "Proceed to Checkout": signed-out visitors go to sign in first. */
  function CheckoutRoute(user: Option<UserId>): (path: string)
    ensures user.None? ==> path == Checkout.SignInRedirect
    ensures user.Some? ==> path == CheckoutPath
    ensures path == CheckoutPath <==> user.Some?
  {
    if user.None? then "/auth?redirect=/checkout" else "/checkout"
  }
}
