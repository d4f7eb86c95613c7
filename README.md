# Storefront cart manager — a verified model

This project models the client-side core of a small e-commerce storefront
(`script.js`). That core is the **cart manager**: an ordered list of cart lines
(id, name, price, quantity) that the storefront's event handlers change in
place. Beside it sit two pure pieces: the product **search filter** and the
admin panel's two **input guards**.

- `cart_items.dfy` (module `CartItems`) holds the cart line and product
  records. It defines `find` by id, the effect of each cart operation on the
  list (add-or-merge, `+`, `-` with a floor of 1, delete), and the badge count
  and cart total. It also holds the lemmas that state what each operation does.
  These cover the cart invariant (unique ids, every quantity at least 1), what
  an operation leaves unchanged, and how it moves the count and the total.
- `storefront.dfy` (module `Storefront`) holds the class `CartManager`. Its
  fields are the in-memory cart, the `cartItems` key of local storage, and the
  rendered total, badge and empty-cart notice. Its methods are the page load,
  `updateCart`, the add-to-cart handler, the cart-panel click handler, the
  checkout button and order submission. `Valid()` is the invariant that
  `updateCart` restores after every change: storage mirrors the cart, and the
  display shows the cart's current total, count and emptiness. The `forEach`
  loop that adds up the total is the method `SumLineTotals`.
- `search.dfy` (module `Search`) models `filterProducts`. A product matches
  when its lower-cased name or description includes the lower-cased term. The
  products that match are kept in catalogue order.
- `admin_forms.dfy` (module `AdminForms`) models two guards. The add-product
  form needs an image, a name and a price. The shop name must be non-empty
  after `trim`.

Modelling choices:

- Ids are `int`, as `parseInt` and `===` compare them.
- Prices are whole paise (`int`), not floating-point rupees. With integer
  paise, the total that `placeOrder` reads back from the displayed text equals
  the computed total. `SubmitOrder` therefore takes the order total from the
  displayed-total field, and `Valid()` ties that field to `Total(items)`.
- Local storage is a plain field. `None` means the key is absent.
- The order response is a parameter: ok, not ok, or a thrown error. The
  product catalogue that the add-to-cart handler fetches is a parameter too.
  So is the UPI screenshot, already encoded.

Three behaviours of the code are easy to misread:

- After a successful order the code removes the storage key. It then calls
  `updateCart`, whose `saveCart` writes the empty cart back. So the key ends
  holding the empty cart, not absent (`SubmitOrder`: `storage == Some([])`).
- Storage is also left untouched when the add-to-cart button names a product
  that the fetched catalogue does not contain. In that case the handler returns
  without calling `updateCart`.
- The cart panel's markup (script.js:100-108) renders no `delete-btn`. The
  delete branch of the click handler is modelled as written. It is reachable
  only if other markup supplies such a button.

## Model

| member | source | states |
|---|---|---|
| CartItems.ItemIndex | script.js:161 | `find` by id: the index of the first line with that id. It returns None exactly when no line has the id. |
| CartItems.IndexOfId | script.js:159-161 | `find` by id over a list of ids: the first position holding the id, with no earlier match. It returns None exactly when the id does not occur. |
| CartItems.ProductIndex | script.js:157-160 | `products.find` by id: the first product with that id, with no earlier match. It returns None exactly when no product has it. |
| CartItems.WellFormed | script.js:161-184 | The cart invariant: no two lines share an id and every quantity is at least 1. AddPreservesWellFormed, IncrementPreservesWellFormed, DecrementPreservesWellFormed and RemovePreservesWellFormed prove each operation keeps it. |
| CartItems.AddProduct | script.js:161-166 | Add-or-merge on the cart list. Its effect is stated by AddExisting, AddAbsent, AddTwice and AddTotals. |
| CartItems.Increment | script.js:177-179 | The `+` button on the cart list. Its effect is stated by IncrementEffect and IncrementCount. |
| CartItems.Decrement | script.js:180-182 | The `-` button with its floor of 1. Its effect is stated by DecrementEffect and DecrementCount. |
| CartItems.RemoveId | script.js:184 | The delete filter. Its effect is stated by RemoveKeeps, RemoveAppend, RemoveAbsent, RemoveExisting and RemoveTotals. |
| CartItems.Count | script.js:114 | The badge: the left fold of quantities. Its properties are stated by CountAppend, UpdateCount and CountAtLeastLines. |
| CartItems.Total | script.js:97-111 | The cart total: the left-to-right sum of price times quantity. SumLineTotals computes it, and TotalAppend and UpdateTotal state its properties. |
| CartItems.IndexOfUnique | script.js:161 | When ids are unique, `find` returns the one line that carries the id. |
| CartItems.AddExisting | script.js:161-163 | Adding a product already in the cart raises that line's quantity by exactly 1. The length and every other line are unchanged. |
| CartItems.AddAbsent | script.js:164-165 | Adding a product not in the cart appends one line (id, name, price, quantity 1) after the existing lines, which stay as they were. |
| CartItems.AddTwice | script.js:161-166 | Adding the same new product twice gives one line of quantity 2, not two lines. |
| CartItems.AddPreservesWellFormed | script.js:161-166 | Add-or-merge keeps ids unique and every quantity at least 1. |
| CartItems.AddTotals | script.js:161-167 | Adding raises the badge count by 1. It raises the total by the merged line's own price, or by the product's price for a new line. |
| CartItems.IncrementEffect | script.js:177-179 | `+` raises only the line with that id, by 1. It leaves every other line, and the whole cart when the id is absent, unchanged. |
| CartItems.DecrementEffect | script.js:180-182 | `-` lowers the line with that id by 1 only when its quantity is above 1. A line at 1 stays at 1 and is never removed. Other lines and absent ids are unchanged. |
| CartItems.IncrementPreservesWellFormed | script.js:177-179 | `+` keeps ids unique and quantities at least 1. |
| CartItems.DecrementPreservesWellFormed | script.js:180-182 | `-` keeps ids unique and quantities at least 1, because it decrements only above 1. |
| CartItems.IncrementCount | script.js:177-186 | `+` raises the badge by 1 exactly when the id is in the cart, and leaves it unchanged otherwise. |
| CartItems.DecrementCount | script.js:180-186 | `-` lowers the badge by 1 exactly when the line with that id is above 1, and leaves it unchanged otherwise. |
| CartItems.RemoveKeeps | script.js:183-184 | Delete keeps exactly the lines whose id differs, and never grows the cart. |
| CartItems.RemoveAppend | script.js:184 | Delete works item by item over any split of the cart, so the kept lines stay in their original order. |
| CartItems.RemoveAbsent | script.js:184 | Deleting an id no line carries leaves the cart unchanged. |
| CartItems.RemoveExisting | script.js:183-184 | When ids are unique, delete drops exactly the one line with that id and keeps the others in order. |
| CartItems.RemovePreservesWellFormed | script.js:183-184 | Delete keeps ids unique and quantities at least 1. |
| CartItems.RemoveTotals | script.js:183-186 | Deleting a line lowers the badge by its quantity and the total by its price times quantity. |
| CartItems.CountAppend | script.js:114 | The badge count (the `reduce` over quantities) is additive over concatenation. |
| CartItems.TotalAppend | script.js:97-111 | The total (sum of price times quantity) is additive over concatenation. |
| CartItems.UpdateCount | script.js:114 | Replacing one line moves the badge count by exactly that line's change in quantity. |
| CartItems.UpdateTotal | script.js:97-111 | Replacing one line moves the total by exactly that line's change in price times quantity. |
| CartItems.LineTotalStep | script.js:110 | Raising or lowering a line's quantity by 1 moves its share of the total by exactly its price. |
| CartItems.CountAtLeastLines | script.js:114-118 | With every quantity at least 1, the badge is at least the number of lines. It shows 0 exactly when the cart is empty. |
| CartItems.TwoLineExample | script.js:95-114 | Lines (100 x 2) and (50 x 1) give total 250 and count 3. |
| Storefront.SumLineTotals | script.js:95-111 | The accumulating loop ends with the sum of price times quantity over all lines. |
| Storefront.Screenshot | script.js:206-216 | The screenshot sent with the order: the encoded file for UPI with a file chosen, else the empty string. SubmitOrder's contract states that the order carries it. |
| Storefront.CartManager.Valid | script.js:93-120 | What `updateCart` leaves behind: storage holds the cart, and the shown total, badge and empty notice are Total, Count and emptiness of the cart. Every handler ensures it. |
| Storefront.CartManager.constructor | script.js:85-120 | Page load takes the stored cart, or the empty cart when the key is absent, then renders and persists it. |
| Storefront.CartManager.UpdateCart | script.js:93-120 | Rendering recomputes total, count and the empty notice from the cart and saves the cart. The cart itself is unchanged. |
| Storefront.CartManager.AddToCart | script.js:155-171 | Add-or-merge runs only when the fetched catalogue has the id. Otherwise nothing changes. The cart invariant is preserved. |
| Storefront.CartManager.OnCartClick | script.js:173-187 | Plus, minus, delete or another target gives the corresponding new cart, then a re-render and save. The cart invariant is preserved. |
| Storefront.CartManager.Checkout | script.js:189-196 | Checkout proceeds exactly when the cart is non-empty. In a well-formed cart that is exactly when the badge is above 0. |
| Storefront.CartManager.SubmitOrder | script.js:198-260 | The order carries the form fields, the cart lines and the cart total. The UPI screenshot is sent only for UPI with a file. Only an ok response empties the cart and its stored copy. |
| Search.Lower | script.js:144-149 | Lower-casing keeps the length and lower-cases each character. |
| Search.LowerIdempotent | script.js:144-149 | Lower-casing twice is lower-casing once. |
| Search.Includes | script.js:148-149 | `includes` holds exactly when the term occurs at some position of the text. |
| Search.Matches | script.js:147-149 | The filter's predicate: the lower-cased name or the lower-cased description includes the lower-cased term. Filter and FilterIgnoresTermCase state its use. |
| Search.Filter | script.js:147-150 | A product is in the result exactly when it is in the catalogue and its name or description matches. |
| Search.FilterAppend | script.js:147-150 | Filtering works piece by piece over any split of the catalogue, so the result keeps the catalogue's order. |
| Search.EmptyTermKeepsAll | script.js:143-150 | An empty search term shows the whole catalogue, in order. |
| Search.FilterIgnoresTermCase | script.js:144-150 | The result does not depend on the case of the term. |
| AdminForms.CheckNewProduct | script.js:410-413 | A refusal carries the required-fields alert. An accepted form goes on unchanged. |
| AdminForms.NewProductRequirements | script.js:410-413 | A new product proceeds exactly when image, name and price are all present. The description never decides. |
| AdminForms.TrimStart | script.js:456 | Leading trim removes exactly a run of whitespace or line terminators, and stops at a non-space. |
| AdminForms.TrimEnd | script.js:456 | Trailing trim removes exactly a run of whitespace or line terminators, and stops at a non-space. |
| AdminForms.Trim | script.js:456 | `String.prototype.trim`: TrimStart then TrimEnd. CheckShopName, TrimIdempotent, TrimEmptyIffBlank and ShopNameAccepted state what it leaves. |
| AdminForms.TrimIdempotent | script.js:456 | Trimming an already trimmed name changes nothing. |
| AdminForms.CheckShopName | script.js:455-465 | An accepted name is exactly the trimmed input, and is non-empty. A refusal carries the enter-a-name alert. |
| AdminForms.TrimEmptyIffBlank | script.js:456 | `trim` leaves nothing exactly when every character is whitespace or a line terminator. |
| AdminForms.ShopNameRefusedIffBlank | script.js:456-464 | A shop name is refused exactly when the input is all whitespace. |
| AdminForms.ShopNameAccepted | script.js:456-458 | An accepted name is the input with exactly its leading and trailing whitespace removed: it sits at some position k, starts and ends with a non-space, and every character before k and after it is whitespace. |

## Left out

- Network calls (`fetchProducts`, `fetchSettings`, `fetchOrders`, `updateOrderStatus`, `updateLogo`, `updateShopName`, product POST and DELETE, the order POST) are not modelled. They are I/O against an external backend. Their results are parameters (the catalogue, the order response) or are not modelled.
- DOM rendering, modal show and hide, `alert` pop-ups and page detection are not modelled. They are presentation. The rendered total, badge and empty notice are kept as fields, and the guards return their alert text.
- `FileReader` data-URL encoding is not modelled. It is an asynchronous browser API. The encoded screenshot is a parameter, and the add-product guard only sees whether a file was chosen.
- The product request the admin form builds after the guard (`parseFloat(price).toFixed(2)`) is not modelled. It is float parsing and formatting.
- Floating-point prices, `toFixed` and reading the total back from the displayed text are not modelled. Prices are integer paise.
- Order status changes (Approved, Cancelled) are not modelled. The client only sends a request, and no transition rule is enforced locally.
- Serialising the cart with `JSON.stringify` and `JSON.parse` is not modelled. Storage holds the cart value itself.
- Search.Lower: lower-cases ASCII letters only. JavaScript's `toLowerCase` uses full Unicode case mapping.
- `CartItem` keeps id, name, price and quantity. The object spread on add-to-cart also copies the product's description and image into the line. No cart rule reads them, and the order request omits them.
- The cart methods do not assume a well-formed stored cart. They state that each operation preserves the cart invariant, because the source trusts whatever local storage holds.
- Re-entrancy while a file is being read (a double submit) is not modelled. The handlers run one at a time here.
