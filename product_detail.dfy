/**
 * The product page: the loaded product, the selected size, a quantity
 * stepper that never goes below 1, and the guard in front of the cart's
 * add request.
 */
module ProductDetail {
  import opened Types
  import CartStore

  /** The first listed size, or '' when the list is missing or empty. */
  function InitialSize(sizes: Option<seq<string>>): (size: string)
    ensures sizes.Some? && |sizes.value| > 0 ==> size == sizes.value[0]
    ensures sizes.None? || sizes.value == [] ==> size == ""
  {
    if sizes.Some? && |sizes.value| > 0 then sizes.value[0] else ""
  }

  datatype AddOutcome = NeedSize | Added

  /** The add-to-cart button: absent while loading or when there is no product. */
  datatype AddButton = NotShown | Disabled | Enabled

  class DetailPage {
    var product: Option<Product>
    var loading: bool
    var selectedSize: string
    var quantity: int
    /** Every request sent to the cart store from this page. */
    var cartRequests: seq<CartStore.Request>

    ghost predicate Valid()
      reads this
    {
      quantity >= 1
    }

    constructor ()
      ensures Valid()
      ensures product.None? && loading && selectedSize == "" && quantity == 1
      ensures cartRequests == []
    {
      product := None;
      loading := true;
      selectedSize := "";
      quantity := 1;
      cartRequests := [];
    }

    /**
     * Fetching the product named by the route. Without a route id the page
     * stays loading; a row that is not found leaves the product absent.
     */
    method Load(routeId: Option<string>, row: Option<Product>)
      requires Valid()
      modifies this
      ensures Valid()
      ensures !Present(routeId) ==> unchanged(this)
      ensures Present(routeId) ==> !loading
      ensures Present(routeId) && row.Some? ==>
        product == row && selectedSize == InitialSize(row.value.sizes)
      ensures row.None? ==> product == old(product) && selectedSize == old(selectedSize)
      ensures quantity == old(quantity) && cartRequests == old(cartRequests)
    {
      if !Present(routeId) {
        return;
      }
      if row.Some? {
        product := row;
        selectedSize := InitialSize(row.value.sizes);
      }
      loading := false;
    }

    method SelectSize(size: string)
      requires Valid()
      modifies this
      ensures Valid()
      ensures selectedSize == size
      ensures product == old(product) && loading == old(loading) && quantity == old(quantity)
      ensures cartRequests == old(cartRequests)
    {
      selectedSize := size;
    }

    /** The minus button: one less, but never below 1. */
    method Decrement()
      requires Valid()
      modifies this
      ensures Valid()
      ensures old(quantity) > 1 ==> quantity == old(quantity) - 1
      ensures old(quantity) == 1 ==> quantity == 1
      ensures product == old(product) && loading == old(loading) && selectedSize == old(selectedSize)
      ensures cartRequests == old(cartRequests)
    {
      quantity := if 1 > quantity - 1 then 1 else quantity - 1;
    }

    /** The plus button: one more, with no upper bound. */
    method Increment()
      requires Valid()
      modifies this
      ensures Valid()
      ensures quantity == old(quantity) + 1
      ensures product == old(product) && loading == old(loading) && selectedSize == old(selectedSize)
      ensures cartRequests == old(cartRequests)
    {
      quantity := quantity + 1;
    }

    /**
     * Adding to the cart. Without a product or a size nothing is sent;
     * otherwise exactly one request with the product, the size and the
     * quantity. Stock is not checked here: only the button is disabled.
     */
    method AddToCart() returns (outcome: AddOutcome)
      requires Valid()
      modifies this
      ensures Valid()
      ensures outcome == NeedSize <==> product.None? || selectedSize == ""
      ensures outcome == NeedSize ==> cartRequests == old(cartRequests)
      ensures outcome == Added ==>
        cartRequests == old(cartRequests) + [CartStore.AddToCart(product.value, selectedSize, quantity)]
      ensures product == old(product) && loading == old(loading)
      ensures selectedSize == old(selectedSize) && quantity == old(quantity)
    {
      if product.None? || selectedSize == "" {
        return NeedSize;
      }
      cartRequests := cartRequests + [CartStore.AddToCart(product.value, selectedSize, quantity)];
      outcome := Added;
    }

    /**
     * The button can be pressed only for a loaded product that is in stock.
     * A product without a size list never gets as far as the button: the
     * size buttons above it fail to render.
     */
    function Button(): (button: AddButton)
      reads this
      ensures button == Enabled <==> !loading && product.Some? && product.value.sizes.Some? && product.value.inStock
      ensures button == Disabled <==> !loading && product.Some? && product.value.sizes.Some? && !product.value.inStock
      ensures product.Some? && product.value.sizes.None? ==> button == NotShown
    {
      if loading || product.None? || product.value.sizes.None? then NotShown
      else if !product.value.inStock then Disabled
      else Enabled
    }
  }
}
