/**
 * The cart store's interface as the pages see it. Its implementation is
 * not part of this model: the pages only issue requests, which are kept as
 * values, so nothing here says how lines are merged or how quantities are
 * clamped.
 */
module CartStore {
  import opened Types

  /** A cart line is identified by its product and its size. */
  datatype LineKey = LineKey(productId: int, size: string)

  function KeyOf(item: CartItem): LineKey
  {
    LineKey(item.product.id, item.size)
  }

  /** The calls a page makes on the cart store. */
  datatype Request =
    | AddToCart(product: Product, size: string, quantity: int)
    | UpdateQuantity(key: LineKey, quantity: int)
    | RemoveFromCart(key: LineKey)
    | ClearCart

  /** The store's invariant as the pages rely on it: no two lines share a key. */
  predicate DistinctKeys(items: seq<CartItem>)
  {
    forall i, j :: 0 <= i < j < |items| ==> KeyOf(items[i]) != KeyOf(items[j])
  }
}
