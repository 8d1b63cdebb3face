# Canteen orders: a verified model of the cart, checkout and order arithmetic

This project models the part of the canteen ordering application that computes something:

- the session cart, a dictionary from item-id text to quantity;
- the cart page's rows and total;
- checkout, which turns the cart into one order plus its line items with snapshot prices;
- the order-cancellation guard;
- the line-item subtotal and the order total;
- the field defaults of the schema;
- the admin site's "Items" summary of an order.

Prices are integer cents, modelling the two-place decimal fields.

Modules (one per component of the program, plus two helper modules):

- `Wrappers` (wrappers.dfy): `Option`.
- `Decimal` (decimal.dfy): `str(n)` and `int(s)` for non-negative integers, with the round trip.
- `Models` (models.dfy): the schema as datatypes (`Status`, `Category`, `Item`, `Order`, `OrderItem`, `Payment`) with their defaults. Also `Subtotal` (`get_subtotal`), `OrderTotal` (what `calculate_total` sums) and class `Db`, the tables that the views and `calculate_total` change. `Db.Valid()` says:
  - orders have ids 1, 2, ... in creation order;
  - every line item belongs to an existing order;
  - every line item's item reference resolves or is null;
  - category names are unique.
- `Cart` (cart.dfy): the cart as an insertion-ordered list of entries with distinct keys. This is how a Python dictionary iterates. It has the pure dictionary operations `Lookup`, `Added` and `Removed`, their lemmas, and class `Session`, whose methods are `_get_cart`, `cart_add`, `cart_remove` and the clearing at checkout.
- `Views` (views.dfy): `cart_view`, `checkout` and `cancel_order`. Each loop in the source is a method loop proved against a specification function: `ViewLines`, `Snapshot` or `Stored`.
- `Admin` (admin.dfy): `items_summary`.

Behaviour of the code that a reader might not expect:

- Cart quantities are not validated. A POST may add zero or a negative amount, so cart quantities are `int`.
- `cart_add` on a missing item aborts with not-found. The cart keeps its contents, although `_get_cart` has already run and may have created an empty cart.
- Checkout does not skip missing items. One missing item aborts the whole request before anything is created. Only the cart page skips missing items.
- Checkout is not one transaction:
  - The order row is created first, with the total of the rows.
  - Then one line item is created per row.
  - The quantity column of a line item is a non-negative integer field, so the store refuses a negative quantity. The loop then ends with the order and the earlier line items stored and the cart not cleared (`StoreFailed`).
  - Only when every line item is stored is the cart emptied (`Placed`).
- `calculate_total`, `image_url` and the unique category name exist only in orders/models_for_django.py. The views import orders/models.py, which declares the same fields and defaults without them. The model has one schema covering both.

## Model

| member | source | states |
|---|---|---|
| Models.StatusCodeRoundTrip | orders/models_for_django.py:49-54 | the four status choices and their stored codes correspond one to one |
| Models.NewOrder | orders/models.py:39-40 | a new order has status pending (code "pending") and total 0 unless a total is given |
| Models.NewOrderItem | orders/models.py:48 | a new line item has quantity 1 unless given; quantity is a non-negative integer |
| Models.NewPayment | orders/models.py:61-62 | a new payment has currency "RWF", status "pending" and no provider data |
| Models.ImageUrl | orders/models_for_django.py:37-42 | no image file (null or empty) gives "/static/img/placeholder.png"; otherwise the storage URL of the file |
| Models.Db.AddCategory | orders/models_for_django.py:8 | a category is stored exactly when no category has that name yet, so names stay unique |
| Models.OrderTotalNoLines | orders/models_for_django.py:72 | an order without line items totals 0 |
| Models.OrderTotalAfterAppend | orders/models_for_django.py:72 | the total of a new order's lines is the sum of their subtotals; other orders' totals do not change |
| Models.Db.CalculateTotal | orders/models_for_django.py:70-75 | sets the order's total to the sum of its lines' subtotals and returns it; nothing else changes |
| Models.RecalculateIdempotent | orders/models_for_django.py:72-74 | recomputing a total twice over the same lines equals recomputing it once |
| Models.Db.CreateOrder | orders/views.py:147-153 | appends one order with the next id and default status |
| Models.Db.CreateOrderItem | orders/views.py:155-160 | appends the line item exactly when its quantity is non-negative; otherwise the store is unchanged |
| Models.Subtotal | orders/models.py:51-52 | `get_subtotal`: quantity times the snapshot price; zero exactly when either factor is, with the price's sign; `Views.StoredTotal` sums it over a placed order's lines |
| Cart.KeyRoundTrip | orders/views.py:42 | `int(str(item_id))` gives the id back, so every key the views write is read back as its item |
| Decimal.NatToStringInjective | orders/views.py:42 | distinct item ids give distinct cart keys |
| Cart.RequestedQuantity | orders/views.py:41 | the quantity added is 1 unless the request is a POST, where it is the posted value (1 when missing) |
| Cart.Added | orders/views.py:43 | `cart[key] = cart.get(key, 0) + qty`: every entry of the result has key k or is an old entry; its quantities and key order are given by `Cart.AddedLookup`, `Cart.AddedKeys` and `Cart.AddedTwice` |
| Cart.AddedLookup | orders/views.py:43 | after adding q under k, k maps to its old quantity (0 if absent) plus q, and every other key keeps its quantity |
| Cart.AddedKeys | orders/views.py:43 | an existing key keeps its place in iteration order; a new key goes last |
| Cart.AddedTwice | orders/views.py:43 | adding a then b to a key is the same cart as adding a + b (2 then 3 gives 5) |
| Cart.AddedWellFormed | orders/views.py:42-43 | adding keeps the keys distinct and well formed |
| Cart.RemovedLookup | orders/views.py:50-52 | removing k leaves no entry for k and every other quantity as it was; on an absent key the cart is unchanged |
| Cart.Removed | orders/views.py:51-52 | `del cart[key]` when present: every entry of the result was an entry of the cart; its quantities and key order are given by `Cart.RemovedLookup` and `Cart.RemovedKeys` |
| Cart.RemovedKeys | orders/views.py:51-52 | removal keeps the remaining keys in their iteration order, with k taken out |
| Cart.RemovedWellFormed | orders/views.py:51-52 | removal keeps the keys distinct and well formed |
| Cart.Session.GetCart | orders/views.py:21-22 | the session cart is created empty if absent and returned otherwise |
| Cart.Session.Add | orders/views.py:38-46 | a missing item leaves the cart's contents; otherwise the requested quantity is added under `str(item_id)` |
| Cart.Session.Remove | orders/views.py:48-55 | deletes the entry for `str(item_id)` when present, reporting whether it was; otherwise no change |
| Cart.Session.Clear | orders/views.py:162 | the session cart becomes empty |
| Views.Summarize | orders/views.py:26-35 | the loop's rows are the cart-page rows and its total is the sum of their subtotals |
| Views.CartView | orders/views.py:24-36 | the page shows the rows and total of the session cart, creating the cart if absent |
| Views.ViewLinesExactly | orders/views.py:28-35 | a row is shown if and only if its item exists with that live data and the cart holds its key with that quantity |
| Views.ViewLinesSkipMissing | orders/views.py:29-32 | an entry whose item is missing adds no row and no money, wherever it sits in the cart |
| Views.CheckoutLines | orders/views.py:137-143 | the loop yields the checkout rows and their total, or aborts when an item is missing |
| Views.SnapshotDefined | orders/views.py:139-140 | checkout finds its rows if and only if every cart entry's item exists |
| Views.SnapshotIsView | orders/views.py:139-143 | when no item is missing, checkout's rows are the cart page's rows, one per entry in cart order |
| Views.StoreRows | orders/views.py:154-160 | creates one line item per row for the order, stopping at the first row the store refuses; reports whether all were stored |
| Views.StoredStops | orders/views.py:154-160 | a refused row ends line-item creation: nothing after it is stored |
| Views.StoredRows | orders/views.py:154-160 | the k-th stored line item carries the k-th row's non-negative quantity, item and price at checkout; all rows are stored when none is negative |
| Views.StoredTotal | orders/models.py:51-52 | the stored line items' subtotals (quantity times snapshot price) sum to the checkout total |
| Views.PlacedOrderConsistent | orders/views.py:145-162 | a placed order has one line item per row with the price at checkout, a total equal to the sum of their subtotals, a total that `calculate_total` leaves unchanged, and other orders' totals unaffected |
| Views.Checkout | orders/views.py:130-166 | empty cart, a missing item or a GET change nothing; a POST stores one order with the rows' total and its line items, and empties the cart exactly when all line items were stored |
| Views.CheckoutExample | orders/views.py:139-162 | two of an item at 1000 and one at 500 give total 2500 and line items priced 1000 and 500 |
| Views.Cancel | orders/views.py:74-75 | cancellation is allowed exactly from pending or preparing and leads to cancelled |
| Views.CancelTwiceRefused | orders/views.py:74-79 | a cancelled order cannot be cancelled again; nor can a delivered one |
| Views.CancelOrder | orders/views.py:72-80 | another user's or a missing order is not found; an allowed order becomes cancelled; otherwise nothing changes |
| Admin.ItemsSummary | orders/admin.py:28-34 | the summary is the line items' parts joined with ", " |
| Admin.PartsAt | orders/admin.py:31-33 | one part per line item, in line-item order |
| Admin.PartFormat | orders/admin.py:32-33 | a part is the item name, or "(deleted item)" for a null item, then " x", then the quantity's numeral, which reads back as the quantity |
| Admin.JoinCons | orders/admin.py:34 | the join is the first part followed by ", " and each later part |
| Admin.SummaryOfNoLines | orders/admin.py:34 | an order without line items has the empty summary |

## Left out

- Authentication views (signup, login, logout) and `login_required`: the authenticated user is a parameter of checkout and cancellation.
- Rendering, flash messages, redirects and `session.modified`: handlers report an outcome value instead.
- `menu_list`, `item_detail`, `order_list` and `order_detail`: each only queries and renders.
- Parsing the posted "quantity" field with `int(...)`: the model takes the already-parsed integer, or none. A non-integer value raises in the source.
- `int(...)` accepts signs, spaces and underscores. The model's parser accepts only digit strings. That is enough, because only `str(item_id)` keys are ever read back.
- The digit limits of the decimal fields and the upper bound of the quantity column: amounts are unbounded integers.
- Text length limits of the character fields, timestamps (`created_at`, `updated_at`) and the `ordering` options: they need a clock or only affect listing order.
- Deleting items, categories, orders and users, and the staff dashboard's unrestricted status update: orders/views.py does not contain them, and they are not part of this model. Null references after deletion appear only as optional fields, and `items_summary` handles the null item.
- Storage of image files: the media base URL is a parameter, and escaping the file name into a URL is not modelled.
- `Payment.provider_raw` is a JSON value, held here as optional text.
- Status is an enumeration, so a non-choice string written directly to the database is not representable.
- Concurrent requests and database transactions: each handler is modelled as running alone to completion.
- Mirroring to an external datastore, mobile-money token retrieval, forms and URL routing: these are network calls or declarations, not computation.
