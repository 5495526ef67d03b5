# Product Store: order, catalogue and storefront rules in Dafny

This project models the rules of a small online store. The store has an
Express/Mongoose backend and a React storefront. The model covers:

- **Orders** (`backend/routes/orders.js`, `backend/models/Order.js`).
  Placing an order first checks every line item against the catalogue. Then
  it saves the order and lowers each product's stock. A reader may see an
  order if they are an admin or their email equals the order's customer email. Admin patches change the order
  status, the payment status and the payment-gateway ids.
- **Catalogue** (`backend/routes/products.js`). This covers required-field
  validation, parsing the comma-separated feature list, keeping the old image
  on update, soft delete through `isActive`, and listing only active products.
- **Storefront lists** (`frontend/src`). This covers the cart total and
  remove-by-index, the category and search filter, the wishlist operations
  and the route guard.

Modules, one file each:

| module | file | what it holds |
|---|---|---|
| `Common` | common.dfy | `Option`, `Result`, the authenticated `User`, the storefront `ProductView`, sub-sequences |
| `Text` | text.dfy | JavaScript `trim`, `split` on one character, `join`, ASCII `toLowerCase`, `includes` |
| `OrderModel` | order_model.dfy | the Order record: enumerations, defaults, the validation a save runs |
| `Catalog` | catalog.dfy | product records and the class `ProductStore` (create, update, soft delete, list) |
| `Orders` | orders.dfy | the class `OrderService` (place, view, list, patch) and the stock arithmetic |
| `Cart` | cart.dfy | `total` and `removeFromCart` |
| `Search` | search.dfy | the category and search filter |
| `Wishlist` | wishlist.dfy | remove, move to cart, clear |
| `Routes` | routes.dfy | `ProtectedRoute` and the route table |

The server handlers that change stored records are methods of two classes.
`Catalog.ProductStore` keeps a map from product id to product. It also keeps
the next free id. `Orders.OrderService` keeps the sequence of saved orders and
shares the `ProductStore`, whose stock it lowers. Each method's postcondition
gives the whole new state in terms of specification functions such as
`AfterDecrement`, `Deactivated`, `StatusPatched` and `PaymentPatched`. The
lemmas about those functions state what the source promises. The schema and
the storefront code are pure, so they become datatypes, functions and lemmas.

Where the intended design and the code differ, the model follows the code:

- The intended design reserves stock atomically, all or nothing. The code
  checks each line against the current stock and then decrements each line.
  So two lines for the same product can each pass and together take the stock
  below zero (`Orders.DuplicateLinesOversell`).
- The intended design recomputes the order total on the server. The code
  stores the `total` from the request as given.
- The intended design allows only forward status transitions. The code writes
  any enumeration value from any state (`Orders.AnyStatusReachable`).
- In the code, a payment patch with no `paymentStatus` marks the payment
  `completed` (`Orders.EmptyPaymentPatchCompletes`). Nothing ties the gateway
  ids to a verified payment.

## Model

| member | source | states |
|---|---|---|
| OrderModel.ParsePaymentMethod | backend/models/Order.js:36-40 | a payment method is accepted exactly when it is `razorpay` or `paypal` |
| OrderModel.PaymentMethodRoundTrip | backend/models/Order.js:36-40 | parsing a method's stored name gives the method back, and only that name parses to it |
| OrderModel.NewOrder | backend/models/Order.js:3-53 | a save succeeds exactly when name and email are non-empty, every quantity is at least 1, `total` is present and the payment method is in the enumeration; the saved order keeps customer, items and total as given, has status `pending`/`pending`, has no gateway ids and is valid |
| Orders.CustomerOf | backend/routes/orders.js:11-14 | the order's customer is the authenticated user's name and email, with no phone or address |
| Orders.ItemError | backend/routes/orders.js:17-25 | definition of the check pass: the first line whose product is missing or whose stock is below its quantity, as an error, or none; its meaning is stated by `ItemErrorNoneIff` and `ItemErrorIsFirstFailure` |
| Orders.ItemErrorNoneIff | backend/routes/orders.js:17-25 | the check pass finds no error exactly when every line names an existing product whose stock is at least the line's quantity |
| Orders.ItemErrorIsFirstFailure | backend/routes/orders.js:17-25 | the error reported is that of the first failing line: product not found, or insufficient stock |
| Orders.AfterDecrement | backend/routes/orders.js:37-41 | definition of the decrement pass: `$inc` of minus the quantity applied line by line, in order; its closed form is `StockAfterOrder` |
| Orders.StockAfterOrder | backend/routes/orders.js:37-41 | after the decrement pass the same products exist, and each product's stock is its old stock minus the summed quantities of the lines that name it |
| Orders.OrderLowersStock | backend/routes/orders.js:37-41 | with valid quantities, a product named on n lines loses at least n units of stock |
| Orders.QuantityOfSingleLine | backend/routes/orders.js:37-41 | a product named on exactly one line loses exactly that line's quantity |
| Orders.QuantityOfNone | backend/routes/orders.js:37-41 | a product named on no line keeps its stock |
| Orders.DistinctLinesKeepStock | backend/routes/orders.js:17-41 | when no product appears on two lines and all stocks start non-negative, an order that passes the check leaves every stock non-negative |
| Orders.DuplicateLinesOversell | backend/routes/orders.js:17-41 | two lines of quantity 1 for a product with stock 1 both pass the check, and the stock ends at -1 |
| Orders.CanView | backend/routes/orders.js:72-74 | definition of the read rule: the reader is an admin or their email equals the order's customer email; `ViewOrder` answers by it in both directions |
| Orders.PlacerCanView | backend/routes/orders.js:72-74 | whoever places an order may read it |
| Orders.StatusPatched | backend/routes/orders.js:85-89 | each status is overwritten only when supplied, every other field is unchanged, and validity is kept |
| Orders.AnyStatusReachable | backend/routes/orders.js:85-95 | any order status and any payment status can be written from any state |
| Orders.StatusPatchIdempotent | backend/routes/orders.js:85-95 | applying the same status patch twice is the same as applying it once |
| Orders.PaymentPatched | backend/routes/orders.js:110-118 | payment status becomes the supplied value, or `completed`; each gateway id is overwritten only when supplied non-empty; customer, items, total, method and order status are unchanged |
| Orders.EmptyPaymentPatchCompletes | backend/routes/orders.js:112-114 | an empty payment patch only sets the payment status to `completed` |
| Orders.PaymentPatchIdempotent | backend/routes/orders.js:110-124 | applying the same payment patch twice is the same as applying it once |
| Orders.OrderService.constructor | backend/routes/orders.js:1-5 | the service starts with no orders over the given catalogue |
| Orders.OrderService.PlaceOrder | backend/routes/orders.js:8-47 | the order is placed exactly when every line passes the stock check and the order passes the save's validation; a failing line gives that line's error; an order that fails validation gives an error; on any error no order is saved and no stock changes; on success the validated order is appended and the stock equals `AfterDecrement` of the old stock |
| Orders.OrderService.ViewOrder | backend/routes/orders.js:62-80 | an unknown id gives not-found; a reader who is neither admin nor the customer gets access denied; otherwise the stored order is returned |
| Orders.OrderService.ListOrders | backend/routes/orders.js:50-59 | returns every saved order, newest first |
| Orders.OrderService.UpdateStatus | backend/routes/orders.js:83-105 | an unknown id gives not-found and changes nothing; otherwise only that order is replaced by its `StatusPatched` value and returned |
| Orders.OrderService.UpdatePayment | backend/routes/orders.js:108-134 | an unknown id gives not-found and changes nothing; otherwise only that order is replaced by its `PaymentPatched` value and returned |
| Text.Trim | backend/routes/products.js:52 | `trim` returns a string no longer than its input that neither starts nor ends with whitespace |
| Text.TrimInfix | backend/routes/products.js:52 | the trimmed string is an infix of the input with only whitespace before and after it |
| Text.TrimUnique | backend/routes/products.js:52 | any infix with only whitespace around it that neither starts nor ends with whitespace is the trimmed string, so `trim` removes exactly the whitespace at both ends |
| Text.TrimIdempotent | backend/routes/products.js:52 | trimming twice is trimming once |
| Text.Split | backend/routes/products.js:52 | `split` returns at least one piece, and no piece contains the separator |
| Text.SplitCount | backend/routes/products.js:52 | `split` returns one more piece than there are separators |
| Text.JoinSplit | backend/routes/products.js:52 | joining the pieces with the separator gives the original string |
| Text.SplitJoin | backend/routes/products.js:52 | splitting a join of separator-free pieces gives the pieces back |
| Text.ToLower | frontend/src/pages/Search.js:27-30 | `toLowerCase` keeps the length and lower-cases each ASCII capital |
| Text.ToLowerIdempotent | frontend/src/pages/Search.js:27-30 | lower-casing twice is lower-casing once |
| Text.Includes | frontend/src/pages/Search.js:27-30 | definition of `includes`: the needle is a prefix of the string or of one of its suffixes; `IncludesAt` relates it to occurrence at an index |
| Text.IncludesAt | frontend/src/pages/Search.js:27-30 | `includes` holds exactly when the needle occurs at some position |
| Catalog.ParseFeatures | backend/routes/products.js:52 | a missing or empty field gives no features; otherwise feature k is the k-th piece of the comma split, trimmed, so there is one feature per comma-separated piece and each is trimmed and comma-free |
| Catalog.FeaturesRoundTrip | backend/routes/products.js:52 | features that are non-empty, trimmed and comma-free survive being written as the admin form's comma list and parsed back |
| Catalog.HasRequiredFields | backend/routes/products.js:36-38 | definition of the required-field check: name, description, price, category and stock all given, text fields non-empty, features optional; `Create` and `Update` succeed only when it holds |
| Catalog.NewProduct | backend/routes/products.js:45-53 | a created product is active, takes every field from the form, parses its features and stores its image as `/uploads/` plus the file name |
| Catalog.Updated | backend/routes/products.js:73-85 | an update overwrites the form fields, replaces the image only when a file is given, and keeps id and `isActive` |
| Catalog.UpdateIdempotent | backend/routes/products.js:73-91 | applying the same update twice is the same as applying it once |
| Catalog.ActiveIds | backend/routes/products.js:10 | an id is listed exactly when its product exists and is active |
| Catalog.Deactivated | backend/routes/products.js:107-111 | definition of soft delete: the stored record with `isActive` set to false; `SoftDeleteOnlyHides` states what it keeps and hides |
| Catalog.SoftDeleteOnlyHides | backend/routes/products.js:107-111 | soft delete keeps every record, changes only `isActive` of the one product, and removes exactly that id from the active ids |
| Catalog.ProductStore.constructor | backend/routes/products.js:1-5 | the catalogue starts empty |
| Catalog.ProductStore.ListActive | backend/routes/products.js:8-15 | returns exactly the stored active products, each once, in id order |
| Catalog.ProductStore.Get | backend/routes/products.js:18-28 | returns the stored product, active or not, and not-found for an unknown id |
| Catalog.ProductStore.Create | backend/routes/products.js:31-61 | the product is created exactly when the required fields and an image are given; missing fields are rejected first, then a missing image; on error nothing is stored; on success `NewProduct` is stored under a fresh id |
| Catalog.ProductStore.Update | backend/routes/products.js:64-102 | the update succeeds exactly when the required fields are given and the id is stored; missing fields are rejected before the lookup, then an unknown id gives not-found; on error nothing changes; on success only that product is replaced by its `Updated` value |
| Catalog.ProductStore.Delete | backend/routes/products.js:105-121 | an unknown id gives not-found and changes nothing; otherwise the catalogue becomes `Deactivated` |
| Catalog.ProductStore.IncStock | backend/routes/orders.js:38-40 | `$inc` on stock adds the delta to one existing product and changes nothing else; an unknown id changes nothing |
| Cart.Total | frontend/src/pages/Cart.js:6 | definition of the cart total: the left fold of `sum + item.price` from 0; `TotalAppend` and `TotalIsPriceSum` state its properties |
| Cart.TotalAppend | frontend/src/pages/Cart.js:6 | the total of two carts joined is the sum of their totals |
| Cart.TotalIsPriceSum | frontend/src/pages/Cart.js:6 | the empty cart totals 0, and a cart totals its first price plus the rest |
| Cart.SpliceStart | frontend/src/pages/Cart.js:10 | `splice` clamps its start index into the array, so an index past the end stays at the end |
| Cart.RemoveAt | frontend/src/pages/Cart.js:8-11 | the new cart is the old cart without the element at the clamped index |
| Cart.RemoveAtShape | frontend/src/pages/Cart.js:8-11 | for an index inside the cart, the new cart is the elements before and after it, in order |
| Cart.RemoveAtMultiset | frontend/src/pages/Cart.js:8-11 | the removed item plus the new cart are exactly the old cart's items |
| Cart.RemoveAtTotal | frontend/src/pages/Cart.js:6-11 | after removing item i, the total drops by exactly item i's price |
| Cart.RemoveOutOfRange | frontend/src/pages/Cart.js:8-11 | removing at an index past the end leaves the cart unchanged |
| Search.ByName | frontend/src/pages/Search.js:27-30 | definition of one filter step: the products whose lower-cased name includes the lower-cased needle, in order; `ByNameSpec` states its meaning |
| Search.Filtered | frontend/src/pages/Search.js:24-33 | definition of the page's pipeline: the category filter unless `All`, then the search filter unless empty; `FilteredSpec` states its meaning |
| Search.ByNameSpec | frontend/src/pages/Search.js:27-30 | one filter keeps every matching product as often as it occurs, drops the rest, and keeps their order |
| Search.ByNameKeepsMatching | frontend/src/pages/Search.js:27-30 | a list whose names all match passes the filter unchanged |
| Search.FilteredSpec | frontend/src/pages/Search.js:24-33 | the result keeps exactly the products whose lower-cased name contains the lower-cased category (unless `All`) and the lower-cased search text (unless empty), with multiplicity and order |
| Search.FilteredIdempotent | frontend/src/pages/Search.js:24-33 | filtering the result again with the same choices changes nothing |
| Search.NoChoicesShowEverything | frontend/src/pages/Search.js:24-33 | category `All` with an empty search shows every product |
| Wishlist.Remove | frontend/src/pages/Wishlist.js:15-19 | definition of `removeFromWishlist`: the entries whose id differs, in order; `RemoveSpec` states its meaning |
| Wishlist.MoveToCart | frontend/src/pages/Wishlist.js:21-24 | definition of `moveToCart`: the product appended to the cart and its id removed from the wishlist; `MoveToCartSpec` states its meaning |
| Wishlist.RemoveSpec | frontend/src/pages/Wishlist.js:15-19 | removal drops every entry with that id and keeps every other entry, with multiplicity and order |
| Wishlist.RemoveAbsent | frontend/src/pages/Wishlist.js:15-19 | removing an id that is not present leaves the wishlist unchanged |
| Wishlist.RemoveIdempotent | frontend/src/pages/Wishlist.js:15-19 | removing the same id twice is removing it once |
| Wishlist.MoveToCartSpec | frontend/src/pages/Wishlist.js:21-24 | the product is appended to the cart, the cart total grows by its price, and every wishlist entry with its id is removed |
| Wishlist.Clear | frontend/src/pages/Wishlist.js:26-29 | clearing leaves an empty wishlist |
| Routes.Guard | frontend/src/App.js:16-32 | while loading, the guard shows the loading view; with no user it redirects to `/login`; with `requireAdmin` and a non-admin it redirects to `/`; otherwise it renders the children |
| Routes.AdminGuardIsStricter | frontend/src/App.js:16-32 | whoever passes the admin guard also passes the login guard |
| Routes.ProtectionOf | frontend/src/App.js:91-137 | a path gets the protection of a matching route, and none when no route matches |
| Routes.FirstMatch | frontend/src/App.js:91-137 | the first matching route decides |
| Routes.RouteTableUnambiguous | frontend/src/App.js:91-137 | no path matches two routes of the table, so the first match is the only match |
| Routes.Visit | frontend/src/App.js:91-137 | definition of what a path renders: the page for an open route, the guard's decision for a protected one, nothing when no route matches; `AdminPage`, `MemberPages` and `PublicPages` state it per route |
| Routes.AdminPage | frontend/src/App.js:129-136 | `/admin` renders only for a signed-in admin once loading is over |
| Routes.MemberPages | frontend/src/App.js:97-128 | `/cart`, `/checkout`, `/wishlist` and `/profile` render for any signed-in user once loading is over |
| Routes.PublicPages | frontend/src/App.js:92-96 | `/`, `/search`, `/product/:id`, `/login` and `/signup` always render |

## Left out

- Payment gateways in `backend/index.js`: creating Razorpay orders, verifying the HMAC-SHA256 signature (RFC 2104), and creating and executing PayPal payments. These are network calls into SDKs. `backend/index.js` is not part of this model.
- Concurrency: the awaits in `backend/routes/orders.js` let other requests run between the check pass and the decrement pass. Each handler is modelled as one sequential step.
- Orders.OrderService.PlaceOrder: line quantities, line prices and the order total are integers in the model. The code accepts any JSON number, so a fractional quantity such as 1.5 passes `min: 1`, passes the stock check and is subtracted by `$inc`. A non-numeric total is a cast error, answered with an error. Fractional and non-numeric values are not modelled.
- Floating point: `parseFloat(price) * 100` and `parseInt(stock)` on the product form, and the `price / 100` display. `ProductForm.price` and `ProductForm.stock` carry the converted integer (minor units), or None when the field is missing or empty. A field that is present but not a number (NaN) is not modelled.
- Catalog.HasRequiredFields: tests the raw form strings, as the code does. A price or stock field that is present but not a number passes the check, and the NaN it converts to is not modelled.
- Mongoose and Express plumbing: `populate`, timestamps, HTTP status codes beyond ok, error and not-found, and cast errors for malformed ids. Order ids are positions in the order sequence. Product ids come from a counter.
- Orders.OrderService.ListOrders: sorts by creation time through the position in the sequence, which is the order of saves.
- Catalog.ProductStore.ListActive: returns products in id (creation) order. The database returns them in its natural order, which the code does not fix.
- Orders.OrderService.UpdateStatus: takes the statuses as enumeration values. Mongoose does not run enum validators on `findByIdAndUpdate` by default, so the code can store a status string outside the enumeration. The model does not represent such a string.
- Orders.OrderService.UpdatePayment: takes the payment status as an enumeration value. The code stores any non-empty `paymentStatus` string through `findByIdAndUpdate` without enum validation. The model does not represent a string outside the enumeration.
- Orders.OrderService.PlaceOrder: every line item carries a product, a quantity and a price. In the code, a line without `product` is answered as product not found, because the lookup of an undefined id finds nothing. A line without `quantity` passes the stock check. The save's validators then reject it, and also reject a line without `price`, and the handler answers with an error. Only a request without `items`, or with a null entry, throws inside the handler; that is also answered with an error. None of these cases is modelled.
- Authentication middleware (`auth`, `adminAuth`): not part of this model. The admin-only handlers are modelled as already authorised, and the signed-in user is a parameter.
- `backend/models/Product.js` is not part of this model. The model assumes `isActive` defaults to true.
- Multer file storage: the upload is reduced to an optional file name.
- React rendering, `useEffect` fetches, `localStorage` reads and writes, and `window.confirm`/`alert`: these are I/O.
- Text.ToLower: lower-cases ASCII letters only. Unicode case mapping is not modelled.
- Routes.ProtectionOf: matches exact paths and the single `:id` segment of `/product/:id`. Other React Router matching rules are not modelled. React Router ranks matching routes by specificity rather than taking the first declared; the model takes the first match, which agrees here because no path matches two routes of the table (`Routes.RouteTableUnambiguous`).
- The remaining pages (Admin, Profile, ProductDetail, Home, Checkout) are forms and displays around the same HTTP calls. Their small list operations repeat the ones modelled here.
