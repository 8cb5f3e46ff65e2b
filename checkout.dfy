/**
 * The checkout page: the shipping rule, the order records built from the
 * cart, and the submit sequence, which clears the cart only once the order
 * insert has succeeded.
 */
module Checkout {
  import opened Types
  import CartStore

  const FreeShippingThreshold: int := 999
  const FlatShipping: int := 99
  const DefaultCountry: string := "India"
  /** Where a visitor who is not signed in is sent before checking out. */
  const SignInRedirect: string := "/auth?redirect=/checkout"
  const CartPath: string := "/cart"

  // ---------------------------------------------------------------------
  // Order summary

  /** Shipping is waived from a subtotal of 999 rupees upwards. */
  function ShippingCost(totalPrice: int): (cost: int)
    ensures cost == 0 <==> totalPrice >= FreeShippingThreshold
    ensures cost == 0 || cost == FlatShipping
  {
    if totalPrice >= 999 then 0 else 99
  }

  function FinalTotal(totalPrice: int): (total: int)
    ensures totalPrice <= total <= totalPrice + FlatShipping
    ensures total == totalPrice <==> totalPrice >= FreeShippingThreshold
  {
    totalPrice + ShippingCost(totalPrice)
  }

  /** What the summary shows on its shipping line. */
  datatype ShippingLine = Free | Fee(amount: int)

  function ShippingShown(totalPrice: int): (line: ShippingLine)
    ensures line == Free <==> totalPrice >= FreeShippingThreshold
    ensures line.Fee? ==> line.amount == FlatShipping
    ensures line.Fee? ==> FinalTotal(totalPrice) == totalPrice + line.amount
  {
    var cost := ShippingCost(totalPrice);
    if cost == 0 then Free else Fee(cost)
  }

  lemma ShippingExamples()
    ensures ShippingCost(998) == 99 && ShippingCost(999) == 0 && ShippingCost(0) == 99
    ensures FinalTotal(1000) == 1000 && FinalTotal(400) == 499
  {
  }

  // ---------------------------------------------------------------------
  // Order records

  /** The address every order of one checkout is shipped to. */
  datatype ShippingAddress = ShippingAddress(
    address: string, city: string, state: string, postalCode: string, country: string)

  /** The payload of one new row of the orders table. */
  datatype OrderInsert = OrderInsert(
    userId: UserId,
    productId: int,
    quantity: int,
    size: string,
    pricePaid: int,
    shipTo: ShippingAddress)

  function LineSubtotal(item: CartItem): int
  {
    item.product.price * item.quantity
  }

  /** The sum of the line subtotals the summary lists. */
  function ItemsSubtotal(items: seq<CartItem>): int
  {
    if items == [] then 0 else LineSubtotal(items[0]) + ItemsSubtotal(items[1..])
  }

  function PricePaidTotal(orders: seq<OrderInsert>): int
  {
    if orders == [] then 0 else orders[0].pricePaid + PricePaidTotal(orders[1..])
  }

  /** One order record per cart line, in cart order. */
  function OrderRecords(items: seq<CartItem>, user: UserId, shipTo: ShippingAddress): (orders: seq<OrderInsert>)
    ensures |orders| == |items|
  {
    if items == [] then []
    else
      var item := items[0];
      [OrderInsert(user, item.product.id, item.quantity, item.size, LineSubtotal(item), shipTo)]
      + OrderRecords(items[1..], user, shipTo)
  }

  /**
   * The i-th record carries the i-th line's product, size and quantity, the
   * price of that line, and the user and address shared by all records.
   */
  lemma {:induction false} OrderRecordAt(items: seq<CartItem>, user: UserId, shipTo: ShippingAddress, i: nat)
    requires i < |items|
    ensures var order := OrderRecords(items, user, shipTo)[i];
      && order.productId == items[i].product.id
      && order.size == items[i].size
      && order.quantity == items[i].quantity
      && order.pricePaid == items[i].product.price * items[i].quantity
      && order.userId == user
      && order.shipTo == shipTo
  {
    if i > 0 {
      OrderRecordAt(items[1..], user, shipTo, i - 1);
    }
  }

  /** The prices recorded on the orders add up to the cart's subtotal. */
  lemma {:induction false} RecordedPricesAddUp(items: seq<CartItem>, user: UserId, shipTo: ShippingAddress)
    ensures PricePaidTotal(OrderRecords(items, user, shipTo)) == ItemsSubtotal(items)
  {
    if items != [] {
      RecordedPricesAddUp(items[1..], user, shipTo);
    }
  }

  // ---------------------------------------------------------------------
  // The form and its submission

  /** The four address fields are required; the country is not checked. */
  function MissingAddressField(address: string, city: string, state: string, postalCode: string): (missing: bool)
    ensures missing <==> "" in [address, city, state, postalCode]
  {
    address == "" || city == "" || state == "" || postalCode == ""
  }

  /** The remote calls a submission makes, in the order it makes them. */
  datatype Effect =
    | InsertOrders(orders: seq<OrderInsert>)
    | UpdateProfile(user: UserId, shipTo: ShippingAddress)
    | CartCall(request: CartStore.Request)

  datatype SubmitOutcome = Rejected | Failed | Placed

  datatype AddressField = AddressText | City | State | PostalCode | Country

  /** The checkout page of a signed-in user. */
  class CheckoutForm {
    const user: UserId
    /** The cart lines as the page sees them. */
    var items: seq<CartItem>
    var address: string
    var city: string
    var state: string
    var postalCode: string
    var country: string
    var loading: bool
    var success: bool
    /** Every remote call made so far. */
    var effects: seq<Effect>

    constructor (user: UserId, items: seq<CartItem>)
      ensures this.user == user && this.items == items
      ensures address == "" && city == "" && state == "" && postalCode == ""
      ensures country == DefaultCountry
      ensures !loading && !success && effects == []
    {
      this.user := user;
      this.items := items;
      address, city, state, postalCode := "", "", "", "";
      country := DefaultCountry;
      loading, success := false, false;
      effects := [];
    }

    function ShipTo(): ShippingAddress
      reads this
    {
      ShippingAddress(address, city, state, postalCode, country)
    }

    /**
     * Where the page sends the shopper on its own: back to the cart when
     * there is nothing to check out, except after an order was placed.
     */
    function CartRedirect(): (target: Option<string>)
      reads this
      ensures target.Some? ==> target.value == CartPath && items == []
      ensures success ==> target.None?
      ensures items == [] && !success ==> target.Some?
    {
      if |items| == 0 && !success then Some(CartPath) else None
    }

    /** A stored profile pre-fills the form; a missing country falls back to India. */
    method Prefill(profile: Option<Profile>)
      modifies this
      ensures profile.None? ==> ShipTo() == old(ShipTo())
      ensures profile.Some? ==>
        var p := profile.value;
        && address == TextOr(p.address, "")
        && city == TextOr(p.city, "")
        && state == TextOr(p.state, "")
        && postalCode == TextOr(p.postalCode, "")
        && country == TextOr(p.country, DefaultCountry)
      ensures profile.Some? ==> country != ""
      ensures items == old(items) && loading == old(loading) && success == old(success)
      ensures effects == old(effects)
    {
      if profile.Some? {
        var p := profile.value;
        address := TextOr(p.address, "");
        city := TextOr(p.city, "");
        state := TextOr(p.state, "");
        postalCode := TextOr(p.postalCode, "");
        country := TextOr(p.country, DefaultCountry);
      }
    }

    /** Typing into one of the address inputs. */
    method Edit(field: AddressField, value: string)
      modifies this
      ensures ShipTo() == match field
        case AddressText => old(ShipTo()).(address := value)
        case City => old(ShipTo()).(city := value)
        case State => old(ShipTo()).(state := value)
        case PostalCode => old(ShipTo()).(postalCode := value)
        case Country => old(ShipTo()).(country := value)
      ensures items == old(items) && loading == old(loading) && success == old(success)
      ensures effects == old(effects)
    {
      match field
      case AddressText => address := value;
      case City => city := value;
      case State => state := value;
      case PostalCode => postalCode := value;
      case Country => country := value;
    }

    /**
     * Placing the order. `insertOk` is the outcome of the orders insert;
     * `profileUpdateOk` is the outcome of the profile update, which the page
     * never inspects.
     */
    method Submit(insertOk: bool, profileUpdateOk: bool) returns (outcome: SubmitOutcome)
      modifies this
      ensures outcome == Rejected <==> MissingAddressField(address, city, state, postalCode)
      ensures outcome == Rejected ==> unchanged(this)
      ensures outcome != Rejected ==>
        && ShipTo() == old(ShipTo())
        && !loading
        && effects == old(effects) + [InsertOrders(OrderRecords(old(items), user, ShipTo()))]
                      + (if insertOk then [UpdateProfile(user, ShipTo()), CartCall(CartStore.ClearCart)] else [])
      ensures outcome == Placed <==> outcome != Rejected && insertOk
      ensures outcome == Placed ==> items == [] && success && CartRedirect().None?
      ensures outcome == Failed ==> items == old(items) && success == old(success)
    {
      if MissingAddressField(address, city, state, postalCode) {
        return Rejected;
      }
      loading := true;
      var orders := OrderRecords(items, user, ShipTo());
      effects := effects + [InsertOrders(orders)];
      if !insertOk {
        outcome := Failed;
      } else {
        effects := effects + [UpdateProfile(user, ShipTo())];
        effects := effects + [CartCall(CartStore.ClearCart)];
        items := [];
        success := true;
        outcome := Placed;
      }
      loading := false;
    }
  }
}
