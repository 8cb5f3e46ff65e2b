/**
 * Row types of the storefront's tables and the cart line type.
 *
 * Prices are whole rupees (`int`): the storefront prints prices without a
 * fraction part. Columns that may hold SQL null are `Option`s.
 */
module Types {

  datatype Option<T> = None | Some(value: T)

  type UserId = string

  /**
   * A row of the products table. The row type declares `sizes` as a plain
   * list, but the column may be null: the product form falls back to its
   * default sizes and the product page's first-size choice tolerates it,
   * so it is optional here.
   */
  datatype Product = Product(
    id: int,
    name: string,
    description: Option<string>,
    price: int,
    sizes: Option<seq<string>>,
    imageUrl: Option<string>,
    inStock: bool,
    createdAt: string)

  /** A row of the profiles table: the shipping defaults of one user. */
  datatype Profile = Profile(
    id: UserId,
    email: string,
    fullName: Option<string>,
    address: Option<string>,
    city: Option<string>,
    state: Option<string>,
    postalCode: Option<string>,
    country: Option<string>,
    createdAt: string)

  /** A row of the orders table: one purchased cart line. */
  datatype Order = Order(
    id: int,
    userId: Option<UserId>,
    productId: Option<int>,
    quantity: int,
    size: string,
    pricePaid: int,
    address: string,
    city: string,
    state: string,
    postalCode: string,
    country: string,
    status: string,
    createdAt: string)

  /** One line of the shopping cart. */
  datatype CartItem = CartItem(product: Product, quantity: int, size: string)

  /**
   * JavaScript's `text || fallback` on an optional string: both null and the
   * empty string are falsy and give the fallback.
   */
  function TextOr(text: Option<string>, fallback: string): string
  {
    if text.Some? && text.value != "" then text.value else fallback
  }

  /** A route parameter or other optional text that is truthy in JavaScript. */
  predicate Present(text: Option<string>)
  {
    text.Some? && text.value != ""
  }
}
