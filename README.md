# Storefront rules — a Dafny model

This project models the business rules written inline in the page
components of a small clothing storefront. The store has a shop listing, a
product page, a cart, a checkout, and an admin back-office for products and
orders. What is modelled is the logic, not the rendering:

- **Checkout** (`Checkout`): shipping is free from a subtotal of 999 rupees
  and 99 otherwise. It builds one order record per cart line, with
  `price_paid = price × quantity` and one shared address. Submission is
  guarded by the required address fields. The cart is cleared only after the
  order insert succeeds.
- **Cart** (`Cart`): the summary, which must agree with checkout; the
  requests sent to the cart store by the minus, plus and remove buttons; and
  the route taken by "Proceed to Checkout".
- **Product page** (`ProductDetail`): a class holding the loaded product, the
  selected size and a quantity stepper that never drops below 1. It also
  holds the guard in front of the cart's add request.
- **Admin product form** (`ProductForm`): the size toggle, the price text of
  a loaded product, the required-field guard, and the update-or-insert choice.
- **Admin orders** (`AdminOrders`, `OrderHistory`): the status filter and the
  style of each of the five statuses. The customer's order history repeats
  that style mapping, and the two copies are proved to agree.
- **Shop** (`Shop`): the case-insensitive search and the query built from the
  sort choice and the in-stock toggle.

Shared pieces: `Types` (the table rows), `CartStore` (the cart store's
interface as requests) and `Filtering` (`Array.prototype.filter`, with its
count, order and idempotence lemmas).

Modelling conventions:

- Prices are whole rupees (`int`). The store prints prices without
  fractions. The source's JavaScript numbers and `parseFloat` are not
  modelled beyond integer decimal text.
- Remote database calls are not executed. An insert or update is appended
  to a log field of the page (`effects`, `requests`), and its success is a
  `bool` parameter. A fetch is a parameter holding the returned row, or
  `None` when nothing came back (`DetailPage.Load`, `Form.Load`,
  `CheckoutForm.Prefill`). An image upload's result is a success flag and
  the public URL, both parameters.
- The cart store's implementation is not part of this model. Pages only
  issue `CartStore.Request` values. Nothing here says how the store merges
  lines or clamps quantities. The checkout page keeps its own copy of the
  cart lines and empties it when it requests `clearCart`.
- JavaScript's `x || fallback` on text treats both null and `''` as missing
  (`Types.TextOr`). Lower-casing covers ASCII letters only.

## Model

| member | source | states |
|---|---|---|
| Checkout.ShippingCost | src/pages/Checkout.tsx:126 | shipping is 0 exactly when the subtotal is at least 999, otherwise 99 |
| Checkout.FinalTotal | src/pages/Checkout.tsx:127 | the total lies between the subtotal and the subtotal + 99, and equals the subtotal exactly when shipping is free |
| Checkout.ShippingShown | src/pages/Checkout.tsx:249 | the summary shows 'Free' exactly from 999; otherwise a fee of 99, which is what the total adds |
| Checkout.ShippingExamples | src/pages/Checkout.tsx:126-127 | boundary values: 998 pays 99, 999 and 1000 ship free, 400 totals 499 |
| Checkout.OrderRecords | src/pages/Checkout.tsx:73-84 | exactly one order record per cart line |
| Checkout.OrderRecordAt | src/pages/Checkout.tsx:73-84 | record i carries line i's product id, size and quantity, price_paid = price × quantity, and the shared user and address |
| Checkout.RecordedPricesAddUp | src/pages/Checkout.tsx:78 | the recorded prices add up to the sum of the line subtotals |
| Checkout.MissingAddressField | src/pages/Checkout.tsx:64 | missing exactly when one of address, city, state or postal code is empty; the country is never checked |
| Checkout.CheckoutForm.CartRedirect | src/pages/Checkout.tsx:55-59 | the page goes back to '/cart' only with no cart lines, never once an order was placed, and always with no lines before one was placed |
| Checkout.CheckoutForm.constructor | src/pages/Checkout.tsx:20-28 | empty address fields, country 'India', not loading, no success, no remote call |
| Checkout.CheckoutForm.Prefill | src/pages/Checkout.tsx:43-50 | a stored profile fills the fields, null or empty country becomes 'India'; no profile changes nothing |
| Checkout.CheckoutForm.Edit | src/pages/Checkout.tsx:141-198 | typing changes exactly one address field |
| Checkout.CheckoutForm.Submit | src/pages/Checkout.tsx:61-104 | rejected with no remote call iff address, city, state or postal code is empty; otherwise one insert of the order records, then on success the profile update and clearCart, an empty cart, success and no return to the cart; a failed insert keeps cart and success; the profile update's result never matters |
| Cart.ShippingShown | src/pages/Cart.tsx:111 | the cart's shipping line is the same as checkout's |
| Cart.TotalShown | src/pages/Cart.tsx:119 | the cart's total equals checkout's final total |
| Cart.Render | src/pages/Cart.tsx:22-120 | the empty-cart state exactly when there are no lines; otherwise the lines with checkout's shipping and total |
| Cart.MinusPressed | src/pages/Cart.tsx:74 | asks the store to set that line's key to quantity − 1 |
| Cart.PlusPressed | src/pages/Cart.tsx:81 | asks the store to set that line's key to quantity + 1 |
| Cart.RemovePressed | src/pages/Cart.tsx:88 | asks the store to remove by the (product id, size) key the line is rendered under |
| Cart.ButtonsAddressOwnLine | src/pages/Cart.tsx:48-92 | with distinct line keys, no button of one line addresses another line |
| Cart.CheckoutRoute | src/pages/Cart.tsx:14-20 | signed-out visitors go to the sign-in redirect checkout itself uses, signed-in users to '/checkout' |
| ProductDetail.InitialSize | src/pages/ProductDetail.tsx:33 | the first listed size, or '' when sizes are missing or empty |
| ProductDetail.DetailPage.constructor | src/pages/ProductDetail.tsx:17-20 | no product, loading, no size, quantity 1 |
| ProductDetail.DetailPage.Load | src/pages/ProductDetail.tsx:22-38 | without a route id nothing changes; a found row becomes the product with its first size selected; loading ends |
| ProductDetail.DetailPage.SelectSize | src/pages/ProductDetail.tsx:127 | the pressed size becomes the selection |
| ProductDetail.DetailPage.Decrement | src/pages/ProductDetail.tsx:146 | quantity becomes max(1, q − 1): it never drops below 1 and 1 stays 1 |
| ProductDetail.DetailPage.Increment | src/pages/ProductDetail.tsx:153 | quantity becomes q + 1 |
| ProductDetail.DetailPage.AddToCart | src/pages/ProductDetail.tsx:40-47 | no product or no size: an error and no request; otherwise exactly one add request with the product, size and quantity |
| ProductDetail.DetailPage.Button | src/pages/ProductDetail.tsx:124-170 | the add button is enabled exactly for a loaded product with a size list that is in stock, disabled for one out of stock; a product whose sizes are null shows no button |
| ProductForm.RemoveAll | src/pages/admin/ProductForm.tsx:141 | every size other than the given one is kept as often as it occurs and in its order, the given one never |
| ProductForm.ToggleSize | src/pages/admin/ProductForm.tsx:138-144 | membership of the size flips; an absent size is appended at the end; every other size stays, in the same relative order |
| ProductForm.ToggleTwiceRestores | src/pages/admin/ProductForm.tsx:140-142 | toggling an absent size twice restores the selection |
| ProductForm.ToggleKeepsDistinct | src/pages/admin/ProductForm.tsx:140-142 | a selection without repeats has none after a toggle |
| ProductForm.DefaultSizesOffered | src/pages/admin/ProductForm.tsx:15-30 | the default selection has no repeats and every default is one of the offered sizes |
| ProductForm.PriceText | src/pages/admin/ProductForm.tsx:57 | a price shows as its decimal digits without leading zeros, a negative one with a leading minus sign |
| ProductForm.ParsePrice | src/pages/admin/ProductForm.tsx:106 | empty text or a lone '-' gives no price; digit text gives its decimal value, which is not negative; '-' followed by digits gives minus their decimal value, and only a leading '-' gives a negative price; any other non-digit character gives no price |
| ProductForm.PriceRoundTrip | src/pages/admin/ProductForm.tsx:57-106 | a loaded price shown as text and read back with parseFloat is the same price |
| ProductForm.MissingRequiredField | src/pages/admin/ProductForm.tsx:96 | missing exactly when the name or the price text is empty or no size is selected; description and image are optional |
| ProductForm.SaveRequestFor | src/pages/admin/ProductForm.tsx:112-133 | an update of the routed product iff a route id is present, otherwise an insert, carrying the form's data |
| ProductForm.Form.constructor | src/pages/admin/ProductForm.tsx:18-32 | empty fields, sizes S, M, L, XL, in stock, loading only when editing |
| ProductForm.Form.Data | src/pages/admin/ProductForm.tsx:103-110 | the saved record carries the form's name, description, stock flag, selected sizes and parsed price; an empty image URL is sent as null, any other URL as itself |
| ProductForm.Form.Load | src/pages/admin/ProductForm.tsx:46-63 | a found product fills the form, missing sizes fall back to S, M, L, XL; the price text is non-empty and parses back to the price |
| ProductForm.Form.Edit | src/pages/admin/ProductForm.tsx:219-246 | typing changes exactly one text field |
| ProductForm.Form.SetInStock | src/pages/admin/ProductForm.tsx:281 | the switch sets the stock flag and nothing else |
| ProductForm.Form.ToggleSizeButton | src/pages/admin/ProductForm.tsx:138-144 | the selection becomes ToggleSize of the old selection, nothing else changes |
| ProductForm.Form.UploadImage | src/pages/admin/ProductForm.tsx:65-91 | no file or a non-image file changes nothing; a successful upload sets the public URL, a failed one keeps the old URL |
| ProductForm.Form.ClearImage | src/pages/admin/ProductForm.tsx:189 | the remove button empties the image URL, so a save sends null, and changes nothing else |
| ProductForm.Form.Submit | src/pages/admin/ProductForm.tsx:93-136 | rejected with no request iff name or price is empty or no size is selected; otherwise exactly one update or insert, and saved iff it succeeds |
| AdminOrders.FilterOrders | src/pages/admin/AdminOrders.tsx:85-87 | 'all' shows every order; another value shows exactly the orders with that status, as often as they occur and in their order; never more orders |
| AdminOrders.FilterOrdersIdempotent | src/pages/admin/AdminOrders.tsx:87 | filtering again by the same value changes nothing |
| AdminOrders.FilterOrdersUniform | src/pages/admin/AdminOrders.tsx:85-87 | when every order has the chosen status, all are shown |
| AdminOrders.StatusColor | src/pages/admin/AdminOrders.tsx:68-83 | a status gets a non-muted style exactly when it is one of the five statuses |
| AdminOrders.StatusColorsDistinct | src/pages/admin/AdminOrders.tsx:68-83 | no two of the five statuses share a style |
| AdminOrders.StatusOptions | src/pages/admin/AdminOrders.tsx:154-167 | the per-order selector offers five distinct statuses, exactly those with their own style, and not 'all' |
| AdminOrders.FilterOptions | src/pages/admin/AdminOrders.tsx:116-128 | the filter menu is 'all' followed by the status options |
| OrderHistory.StatusColor | src/pages/Orders.tsx:40-55 | the order history's styles agree with the admin list's on every input |
| Shop.Lower | src/pages/Shop.tsx:52-53 | same length; each of 'A'..'Z' becomes the matching 'a'..'z', every other character is kept; no upper-case ASCII letter is left |
| Shop.Matches | src/pages/Shop.tsx:52-53 | the empty search matches every product; a product with null description is matched on its name only; a description containing the search is a match |
| Shop.SearchIgnoresCase | src/pages/Shop.tsx:51-54 | any two searches of the same length whose characters agree up to ASCII letter case find the same products |
| Shop.SearchLowered | src/pages/Shop.tsx:51-54 | a search and its lower-case form find the same products |
| Shop.FilterProducts | src/pages/Shop.tsx:51-54 | exactly the products whose lowered name or non-null description contains the lowered search, in the fetched order |
| Shop.EmptySearchShowsAll | src/pages/Shop.tsx:51-54 | an empty search keeps every product |
| Shop.SortOrder | src/pages/Shop.tsx:32-42 | 'price-low' orders by price ascending, 'price-high' descending, anything else by creation time, newest first |
| Shop.BuildQuery | src/pages/Shop.tsx:26-42 | the in-stock toggle admits only in-stock rows, otherwise every row; the order is the sort choice's |
| Shop.SortChoices | src/pages/Shop.tsx:32-42 | the three menu choices give distinct orderings, and any other value behaves as 'newest' |

## Left out

- Rendering, layout, toasts and navigation effects other than the routes named above.
- Authentication and the admin gate (`!user || !isAdmin` sends the visitor home). The checkout page is modelled for a signed-in user. Its `user!` dereference when nobody is signed in is not modelled, because the page redirects on entry.
- Checkout.CheckoutForm: the return to '/cart' on an empty cart (Checkout.tsx:55-59) is a function of the page's state (`CartRedirect`), not a navigation. Fetching the profile is the `Prefill` parameter. The stored `profile` object itself is not kept, because the page only stores it.
- The browser's own validation of inputs marked `required`. Only the JavaScript guards are modelled.
- Remote calls: the database client and the image storage. An insert or update is a logged request with a success flag; a fetch is a parameter holding the returned row; an image upload's success flag and public URL are parameters. The order-notification function is not called from any modelled page, so nothing stands for it. Whether a row satisfies a query and how rows are ordered (`Shop.Admits`, `Shop.InOrder`) describe what the database is asked for; the database itself is not part of this model.
- ProductDetail.DetailPage.Button: a product row whose sizes are null makes the product page (ProductDetail.tsx:124) and the shop card (`product.sizes.map`) fail to render. The model only says that no add button is shown then, not that rendering fails.
- ProductForm.ParsePrice: models `parseFloat` only for an optional minus sign followed by decimal digits. Leading spaces, fractions, exponents and trailing text give `None` here, while `parseFloat` would accept them. So fractional prices are outside the model.
- ProductForm.SaveRequestFor: the update is addressed by the route id as text; the source's `parseInt` of that id is not modelled.
- ProductForm.Form.UploadImage: the stored file name built from the clock (`Date.now()`) is not modelled. The public URL is a parameter.
- The cart store (`CartContext`): its merge, clamping, totals and persistence are not part of this model. `totalPrice` is an input wherever a page uses it.
- Shop.Lower: ASCII only; `toLowerCase` on other Unicode letters is not modelled.
- Shop.InOrder: creation times are compared as text, which matches chronological order only for timestamps in one fixed-width format.
- Price formatting (`formatPrice`, `formatDate`) depends on locale and is not modelled.
