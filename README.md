# ValueFurniture storefront, modelled in Dafny

ValueFurniture is an ASP.NET MVC furniture shop. Visitors browse and search
products, fill a shopping cart kept under a session cart id, and check out. At
checkout the cart becomes an order with one order line per cart row, and the
payment goes through the Braintree gateway. Customers can see and cancel their
orders: cancelling refunds three quarters of the total and puts stock back.
Administrators list, search, edit and delete products and orders.

This project models that core over one sequential database:

- `Database.Store` holds the Products, Categories, Carts, Orders and
  OrderDetails tables and the two identity counters. `Store.Valid` is the
  invariant every action keeps:
  - keys match ids and stay below their counters;
  - every order line belongs to an order id already handed out;
  - the OrderDetails key (productId, orderId) is unique;
  - every cart row holds at least one unit.
- `ShoppingCarts.ShoppingCart` is the cart service, as a class over that store.
  Its methods change the Carts and OrderDetails tables in place.
- Each controller is a module:
  - `ShoppingCartController`, `CheckoutController`, `OrderController`,
    `HomeController` and `ProductsController`;
  - queries are functions of `table`, the rows of a table in the order the
    database returns them;
  - actions that change the store are methods with `modifies` frames;
  - each action's result is a datatype, with a `...Crash` constructor wherever
    an exception escapes the action. Unless stated otherwise, a crash that
    comes before `SaveChanges` leaves the store unchanged.
- `CartLines` and `OrderLines` are the specification functions over cart rows
  and order lines: units, row counts, counts, totals, rows of one cart, rows of
  the other carts, migration, order lines and their total. The lemmas about
  them are what the cart methods are proved against.
- `Sorting` models LINQ's `OrderBy` (a stable insertion sort under a total
  preorder) and `Where` (a filter). Each comes with what it promises about the
  multiset and the order of its result.
- `OrderValidation` models the data annotations on `Order` that Entity
  Framework checks when an order is saved.

Three behaviours of the code are worth stating up front:

- **A failed checkout crashes instead of showing the form again.** The catch
  block of `AddressAndPayment` (CheckoutController.cs:103-107) returns
  `View(order)`, but only after evaluating `ex.InnerException.ToString()`.
  Validation fails inside `SaveChanges` with an exception whose
  `InnerException` is null, so the catch block throws. A missing profile and
  a vanished product fail the same way. Only the OrderDetails key clash comes
  wrapped and reaches `View(order)`. For the same reason, no action ever reads
  the list of validation errors that `OrderValidation.Errors` describes. It is
  modelled to state what `IsValid` checks, column by column.
- **Cancelling restocks one unit per line.** `CancelConfirmed` puts back one
  unit for every line of the order, not the line's quantity.
- **A product's details page never returns NotFound.** `ProductsController.Details`
  checks a query for null, and a query is never null. An unknown id therefore
  shows an empty page.

## Model

| member | source | states |
|---|---|---|
| Entities.ContainsAt | ValueFurniture/Controllers/ProductsController.cs:47 | `Contains(s, sub)` holds exactly when `sub` occurs at some position of `s` |
| Entities.IntToString | ValueFurniture/Controllers/CheckoutController.cs:178 | the decimal text of a number is never empty, all digits for a non-negative number and led by a minus sign for a negative one; `IntToStringValue` states its value |
| Entities.DigitsOf | ValueFurniture/Controllers/CheckoutController.cs:178 | the digits written for a non-negative number denote exactly that number |
| Entities.IntToStringValue | ValueFurniture/Controllers/CheckoutController.cs:178 | the text is the number itself: a non-negative number's digits denote it, and a negative number is a minus sign before its magnitude's digits |
| Entities.IntToStringInjective | ValueFurniture/Controllers/OrderController.cs:420 | different numbers give different text, so a notification names exactly one order or product |
| Entities.Utf16Length | ValueFurniture/POCO_Classes/Order.cs:34 | `string.Length` counts UTF-16 code units: at least one and at most two per character, exactly one each for text in the Basic Multilingual Plane |
| Entities.AstralLength | ValueFurniture/POCO_Classes/Order.cs:34 | text made only of characters outside the Basic Multilingual Plane counts two code units per character |
| Sorting.Insert | ValueFurniture/Controllers/HomeController.cs:30 | inserting into a sorted sequence gives a sorted sequence whose multiset gains exactly that element |
| Sorting.Sort | ValueFurniture/Controllers/HomeController.cs:30 | `OrderBy` returns a sorted permutation of its input (same multiset, same length) |
| Sorting.Filter | ValueFurniture/Controllers/HomeController.cs:31 | `Where` keeps exactly the elements satisfying the predicate, each as often as in the input, and never more elements |
| Sorting.FilterSorted | ValueFurniture/Controllers/HomeController.cs:30-31 | filtering a sorted sequence leaves it sorted, so `OrderBy(...).Where(...)` is sorted |
| Sorting.StringLeTotal | ValueFurniture/Controllers/HomeController.cs:30 | ordinal string comparison relates every two names, one way or the other |
| Sorting.StringLeTransitive | ValueFurniture/Controllers/HomeController.cs:30 | ordinal string comparison is transitive |
| OrderValidation.FieldErrors | ValueFurniture/POCO_Classes/Order.cs:32-108 | a column's errors are all about that column, and there are none exactly when it is present and fits its length in UTF-16 code units; a Missing error means a null or blank value, a TooLong error a value over the limit |
| OrderValidation.ErrorsOf | ValueFurniture/POCO_Classes/Order.cs:32-108 | the errors of a list of columns are empty exactly when every column passes; a Missing error names a null or blank value; a TooLong error names a value longer than that column's limit in UTF-16 code units |
| OrderValidation.Errors | ValueFurniture/POCO_Classes/Order.cs:32-108 | an order has no validation errors exactly when it is valid (first and last name up to 160, line 1 up to 70, city 40, postal code 10, country 40, phone 11, all required, lengths counted in UTF-16 code units) |
| OrderValidation.UnannotatedColumns | ValueFurniture/POCO_Classes/Order.cs:66-155 | line 2, email, date, total, customer id and transaction id never affect validity |
| CartLines.Sum | ValueFurniture/POCO_Classes/ShoppingCart.cs:149-155 | a row count is never negative, and neither is any sum over rows that each hold at least one unit |
| CartLines.SumConcat | ValueFurniture/POCO_Classes/ShoppingCart.cs:149-155 | a count over two runs of rows is the sum of their counts |
| CartLines.TotalConcat | ValueFurniture/POCO_Classes/ShoppingCart.cs:163-172 | a total over two runs of rows is the sum of their totals |
| CartLines.SumUpdate | ValueFurniture/POCO_Classes/ShoppingCart.cs:83 | replacing one row changes every count and every total by the difference between the old row and the new |
| CartLines.SumDelete | ValueFurniture/POCO_Classes/ShoppingCart.cs:111 | deleting a row takes exactly that row's part out of every count and every total |
| CartLines.SumAppend | ValueFurniture/POCO_Classes/ShoppingCart.cs:78 | appending a row adds exactly that row's part to every count and total |
| CartLines.NoRows | ValueFurniture/POCO_Classes/ShoppingCart.cs:64-67 | when no row holds a key, no row matches it and it has zero units |
| CartLines.MatchIndex | ValueFurniture/POCO_Classes/ShoppingCart.cs:64-65 | when some row holds the key, the index returned is in range and its row holds that key |
| CartLines.SingleMatch | ValueFurniture/POCO_Classes/ShoppingCart.cs:97-98 | when exactly one row holds a key, no other row matches it and that row carries all the key's units |
| CartLines.RowsWithinHolders | ValueFurniture/Controllers/ShoppingCartController.cs:84-85 | the rows of one cart holding a product are never more than the rows of all carts holding it |
| CartLines.AppendOneMore | ValueFurniture/POCO_Classes/ShoppingCart.cs:67-78 | appending a new row of count 1 for an absent key adds one unit to that key and one to the cart's count, adds the product's price to the cart's total, and changes no other key |
| CartLines.ShiftLine | ValueFurniture/POCO_Classes/ShoppingCart.cs:83 | changing one row's count by `d` moves that key's units and its cart's count by `d`, keeps its row count, changes the cart's total by that row's difference, and leaves every other key unchanged |
| CartLines.LineShift | ValueFurniture/POCO_Classes/ShoppingCart.cs:166-169 | `d` more units on a row add `d` times the product's price to the row's part of the total |
| CartLines.IncrementOneMore | ValueFurniture/POCO_Classes/ShoppingCart.cs:80-84 | one more unit on the key's only row is one unit more of that key and nothing else |
| CartLines.DecrementOneMore | ValueFurniture/POCO_Classes/ShoppingCart.cs:104-108 | one unit fewer on a row holding several is the inverse of adding one, and leaves count - 1 units |
| CartLines.DeleteOneMore | ValueFurniture/POCO_Classes/ShoppingCart.cs:109-112 | deleting the key's only row leaves it zero units and every other key unchanged; for a row of one unit it is the inverse of adding one |
| CartLines.AddLine | ValueFurniture/POCO_Classes/ShoppingCart.cs:61-88 | fails exactly when two or more rows hold the key; appends a count-1 row when none does; otherwise increments the one row; afterwards exactly one row holds the key, with one more unit, and nothing else changes |
| CartLines.RemoveLine | ValueFurniture/POCO_Classes/ShoppingCart.cs:95-116 | succeeds exactly when one row holds the key; returns count - 1, or 0 when the row is deleted, which equals the units left; on rows of at least one unit, the old rows are the new rows with one unit added back |
| CartLines.CartItemsRows | ValueFurniture/POCO_Classes/ShoppingCart.cs:138-141 | `GetCartItems` returns exactly the rows of this cart |
| CartLines.CartItemsSum | ValueFurniture/POCO_Classes/ShoppingCart.cs:138-155 | the cart's own rows carry all of its units and its count |
| CartLines.CartItemsTotal | ValueFurniture/POCO_Classes/ShoppingCart.cs:163-172 | the cart's own rows carry all of its total |
| CartLines.OtherCartsRows | ValueFurniture/POCO_Classes/ShoppingCart.cs:121-130 | emptying a cart keeps exactly the rows of the other carts, and keeps them all positive |
| CartLines.OtherCartsSum | ValueFurniture/POCO_Classes/ShoppingCart.cs:121-130 | after emptying, the cart's own sums are 0 and every other cart's sums are unchanged |
| CartLines.OtherCartsTotal | ValueFurniture/POCO_Classes/ShoppingCart.cs:121-130 | after emptying, the cart's total is 0 |
| CartLines.Migrated | ValueFurniture/POCO_Classes/ShoppingCart.cs:244-253 | migrating keeps every row's product, count and date; it moves the rows of the old cart to the new one and leaves the other rows unchanged |
| CartLines.MigratedSums | ValueFurniture/POCO_Classes/ShoppingCart.cs:244-253 | after migration the old cart is empty; the new one holds both carts' units, rows and counts; every other cart is unchanged |
| CartLines.MigrateMayDuplicateKey | ValueFurniture/POCO_Classes/ShoppingCart.cs:64-65 | after migrating into a cart that already holds the product, the key is held twice, so both adding and removing that product fail |
| OrderLines.DetailsFor | ValueFurniture/POCO_Classes/ShoppingCart.cs:186-203 | one order line per cart row, in order, carrying the row's product and count, the order's id and customer, and the product's current name and price |
| OrderLines.DetailsTotalIsCartTotal | ValueFurniture/POCO_Classes/ShoppingCart.cs:200-206 | the order lines add up to the cart's total |
| OrderLines.AppendedBelow | ValueFurniture/POCO_Classes/ShoppingCart.cs:191 | lines of an existing order keep every line's order id below the counter |
| OrderLines.NewKeysUnique | ValueFurniture/POCO_Classes/ShoppingCart.cs:188-209 | for an order with no lines yet, adding its lines keeps the OrderDetails key unique exactly when the cart rows hold distinct products |
| OrderLines.TwoRows | ValueFurniture/POCO_Classes/ShoppingCart.cs:64-65 | two rows of the same key make its row count at least 2 |
| OrderLines.DistinctProductsRows | ValueFurniture/POCO_Classes/ShoppingCart.cs:186-203 | a cart's rows hold distinct products exactly when no key of it has two rows |
| ShoppingCarts.CartIdStable | ValueFurniture/POCO_Classes/ShoppingCart.cs:221-238 | once the session holds a cart id, later requests keep it whoever signs in |
| ShoppingCarts.ShoppingCart.GetCart | ValueFurniture/POCO_Classes/ShoppingCart.cs:40-45 | a new cart over the store whose id is the one the session now holds |
| ShoppingCarts.ShoppingCart.GetCartId | ValueFurniture/POCO_Classes/ShoppingCart.cs:221-238 | the session's id; if it has none, the signed-in name when not blank, else the fresh GUID, which is then stored |
| ShoppingCarts.ShoppingCart.AddToCart | ValueFurniture/POCO_Classes/ShoppingCart.cs:61-88 | succeeds exactly when at most one row holds the key, and then the rows become `AddLine`'s; otherwise nothing changes |
| ShoppingCarts.ShoppingCart.RemoveFromCart | ValueFurniture/POCO_Classes/ShoppingCart.cs:95-116 | succeeds exactly when one row holds the key, with `RemoveLine`'s rows and item count; otherwise nothing changes |
| ShoppingCarts.ShoppingCart.EmptyCart | ValueFurniture/POCO_Classes/ShoppingCart.cs:121-130 | the loop leaves exactly the other carts' rows, in order |
| ShoppingCarts.ShoppingCart.MigrateCart | ValueFurniture/POCO_Classes/ShoppingCart.cs:244-253 | the in-place loop leaves exactly `Migrated` rows |
| ShoppingCarts.ShoppingCart.OrderLinesOf | ValueFurniture/POCO_Classes/ShoppingCart.cs:186-203 | the loop yields `DetailsFor` lines and the cart's total, and fails exactly when some row's product is gone |
| ShoppingCarts.ShoppingCart.CreateOrder | ValueFurniture/POCO_Classes/ShoppingCart.cs:181-212 | fails with nothing saved exactly when a product is gone or the new lines clash on the key; otherwise appends the lines, sets the order total to the cart total (which equals the lines' total), and empties the cart (count 0) |
| ShoppingCartController.Index | ValueFurniture/Controllers/ShoppingCartController.cs:24-35 | the page shows exactly this cart's rows, and its total equals the total of those rows |
| ShoppingCartController.CartSummary | ValueFurniture/Controllers/ShoppingCartController.cs:115-121 | the count shown is the cart's unit count, never negative |
| ShoppingCartController.AddToCart | ValueFurniture/Controllers/ShoppingCartController.cs:44-68 | crashes for an unknown product or a doubly held key; shows the out-of-stock error at zero stock; otherwise one unit moves from stock to cart: stock plus cart units are conserved, stock stays non-negative, and no other key changes |
| ShoppingCartController.RemoveFromCart | ValueFurniture/Controllers/ShoppingCartController.cs:78-106 | succeeds exactly when one row of all carts holds the product, the product exists and that row is this cart's; then one unit moves back to stock, stock plus cart units are conserved, the reply carries the encoded name, total, count (one less), units left and id, and the notification names the product |
| ShoppingCartController.HtmlEncode | ValueFurniture/Controllers/ShoppingCartController.cs:98 | the encoded name contains no `<`, `>`, `"` or `'` and no Latin-1 character, text without special characters is unchanged, and `HtmlRoundTrip` shows nothing is lost |
| ShoppingCartController.DecodeChar | ValueFurniture/Controllers/ShoppingCartController.cs:98 | each character's encoding (entity or itself) decodes back to that character, whatever text follows |
| ShoppingCartController.HtmlRoundTrip | ValueFurniture/Controllers/ShoppingCartController.cs:98 | decoding the encoded name gives back exactly the name, so the encoder loses nothing |
| CheckoutController.Show | ValueFurniture/Controllers/CheckoutController.cs:193-213 | the success page exactly for the seven success statuses; otherwise "Transaction Failed" with the status text right after the fixed prefix |
| CheckoutController.ErrorText | ValueFurniture/Controllers/CheckoutController.cs:175-179 | the error text is empty exactly when there are no errors |
| CheckoutController.ErrorTextConcat | ValueFurniture/Controllers/CheckoutController.cs:175-179 | the text of two runs of errors is their texts one after the other |
| CheckoutController.ErrorMessages | ValueFurniture/Controllers/CheckoutController.cs:175-179 | the loop builds exactly `ErrorText` |
| CheckoutController.RefundAmount | ValueFurniture/Controllers/CheckoutController.cs:258 | the refund is three quarters of the total, between 0 and the total for a non-negative total |
| CheckoutController.Cancel | ValueFurniture/Controllers/CheckoutController.cs:255-266 | a refund of three quarters of the order's total is requested against the given transaction exactly when the order exists |
| CheckoutController.FailedAction | ValueFurniture/Controllers/CheckoutController.cs:271-277 | removes exactly the session's order; fails, changing nothing, when the session has no order id or the order is gone |
| CheckoutController.Create | ValueFurniture/Controllers/CheckoutController.cs:130-186 | an unconvertible amount asks to retry; a missing session order crashes; success records the transaction id on the order; a declined sale leads to Failed; invalid sale errors show `ErrorText` and remove the order; a sale call that throws crashes and changes nothing; the sale is asked for the session's amount |
| CheckoutController.Complete | ValueFurniture/Controllers/CheckoutController.cs:222-247 | the Error view, with no notices, unless the order exists and is the current user's; otherwise a confirmation email first, plus an SMS exactly when the profile has a phone; a missing profile crashes after the email |
| CheckoutController.FilledOrder | ValueFurniture/Controllers/CheckoutController.cs:66-91 | the saved order keeps the form's address, takes the user's id, name, email and phone (when present), the time and the cart total; it is valid exactly when the form with those names and phone is |
| CheckoutController.SaveOrder | ValueFurniture/Controllers/CheckoutController.cs:93-94 | the order is stored under the next identity value, which is then advanced |
| CheckoutController.AddressAndPayment | ValueFurniture/Controllers/CheckoutController.cs:64-108 | no profile or an invalid order crashes with nothing saved; otherwise the order is saved under the next id, and the session holds its total and id; a gone product crashes, a key clash shows the form, and success writes the lines, empties the cart and makes the lines add up to the order total |
| CheckoutController.NewOrderClash | ValueFurniture/Controllers/CheckoutController.cs:93-100 | a freshly numbered order's lines clash exactly when some product has two rows in the cart |
| OrderController.DateOrders | ValueFurniture/Controllers/OrderController.cs:47 | ordering by date, ascending or descending, is a total preorder |
| OrderController.Index | ValueFurniture/Controllers/OrderController.cs:39-52 | every order without a search; otherwise exactly the orders whose email, first or last name starts with it, each as often as stored, latest first |
| OrderController.MyOrders | ValueFurniture/Controllers/OrderController.cs:197-209 | exactly the current user's orders, each as often as stored, earliest first |
| OrderController.Details | ValueFurniture/Controllers/OrderController.cs:61-82 | BadRequest without an id; NotFound for an unknown one; otherwise the order and exactly its lines |
| OrderController.Cancel | ValueFurniture/Controllers/OrderController.cs:360-378 | BadRequest, NotFound, the dispatched error for an order more than two days old, or the confirmation page |
| OrderController.CancelWindow | ValueFurniture/Controllers/OrderController.cs:371 | an order can be cancelled until two days after it was placed, and once it cannot be, it never can again |
| OrderController.Restocked | ValueFurniture/Controllers/OrderController.cs:407-416 | the restock keeps the product keys and adds, to each product, one unit per line of the order holding it |
| OrderController.LineCountUnique | ValueFurniture/Controllers/OrderController.cs:407-416 | with the OrderDetails key unique, an order holds a product on at most one line, and on one exactly when some line holds it |
| OrderController.RestockedOnce | ValueFurniture/Controllers/OrderController.cs:407-416 | cancelling puts back exactly one unit of each product the order holds and nothing of any other |
| OrderController.RestockLoop | ValueFurniture/Controllers/OrderController.cs:407-416 | the loop yields `Restocked` and fails exactly when some line's product is gone |
| OrderController.CancelConfirmed | ValueFurniture/Controllers/OrderController.cs:389-426 | an unknown order crashes before anything is asked; otherwise a three-quarter refund is requested; a refund call that throws crashes before any email, with nothing saved; else the cancellation email is requested (plus SMS with a phone); a missing profile or a gone product crashes with nothing saved; success restocks one unit per held product, removes the order and redirects by role |
| OrderController.DeleteConfirmed | ValueFurniture/Controllers/OrderController.cs:182-189 | removes exactly that order; an unknown id crashes and changes nothing |
| HomeController.CategoryOf | ValueFurniture/Controllers/HomeController.cs:41 | a product's category is the category with its id, and none exactly when no category has it |
| HomeController.Views | ValueFurniture/Controllers/HomeController.cs:32-42 | each view carries its own product's values and category, one per product, in order |
| HomeController.NameOrder | ValueFurniture/Controllers/HomeController.cs:30 | ordering by product name is a total preorder |
| HomeController.Index | ValueFurniture/Controllers/HomeController.cs:27-50 | exactly the products whose name starts with the term, or whose category is named by it, each as often as stored, sorted by name; every product without a term |
| HomeController.QuantityOrder | ValueFurniture/Controllers/HomeController.cs:61 | ordering by stock is a total preorder |
| HomeController.InStockOnly | ValueFurniture/Controllers/HomeController.cs:61 | every product the in-stock filter keeps is in stock, and none is kept more often than stored |
| HomeController.TakeLeast | ValueFurniture/Controllers/HomeController.cs:61 | the first `n` of a sequence sorted by stock is part of it, and nothing left over has fewer units than anything taken |
| HomeController.PopularProducts | ValueFurniture/Controllers/HomeController.cs:59-74 | at most three products, all in stock, fewest units first, drawn from the table; an in-stock product is left out only when three are shown, all with no more units than it |
| HomeController.InStockByQuantity | ValueFurniture/Controllers/HomeController.cs:61 | exactly the in-stock products, each as often as stored, sorted by stock |
| HomeController.TakeInStock | ValueFurniture/Controllers/HomeController.cs:61 | taking the first three of the sorted in-stock products meets every promise of `PopularProducts` |
| HomeController.HideUnavailableProducts | ValueFurniture/Controllers/HomeController.cs:109-124 | exactly the in-stock products, each as often as stored |
| HomeController.Named | ValueFurniture/Controllers/HomeController.cs:85 | the positions of the categories with the given name, in increasing order |
| HomeController.NamedOnce | ValueFurniture/Controllers/HomeController.cs:85 | `Single` finds one category exactly when exactly one category has the name |
| HomeController.Browse | ValueFurniture/Controllers/HomeController.cs:83-103 | crashes unless exactly one category has the name; otherwise that category and exactly its products, each as often as stored |
| HomeController.IndexModel | ValueFurniture/Controllers/HomeController.cs:27-50 | the view models `Index` hands its view: view model i carries all seven columns of `Index`'s product i, so one per matching product, each as often as stored, in order of name, with its category |
| HomeController.PopularModel | ValueFurniture/Controllers/HomeController.cs:59-74 | view model i carries all seven columns of `PopularProducts`' product i: at most three, in stock, fewest units first, and the three lowest-stock products |
| HomeController.HideUnavailableModel | ValueFurniture/Controllers/HomeController.cs:109-124 | view model i carries all seven columns of `HideUnavailableProducts`' product i, so one per in-stock product, each as often as stored |
| HomeController.BrowseModel | ValueFurniture/Controllers/HomeController.cs:83-103 | exactly when `Browse` finds the category; view model i then carries all seven columns of the category's product i, so one per product of it, each as often as stored |
| ProductsController.Index | ValueFurniture/Controllers/ProductsController.cs:37-51 | every product without a name; otherwise exactly the products whose name contains it, each as often as stored |
| ProductsController.Details | ValueFurniture/Controllers/ProductsController.cs:61-84 | BadRequest without an id; otherwise the product with that key, or an empty page for an unknown key |
| ProductsController.Find | ValueFurniture/Controllers/ProductsController.cs:126-139 | Edit and Delete (GET): BadRequest without an id, NotFound for an unknown one, otherwise the stored product |
| ProductsController.Create | ValueFurniture/Controllers/ProductsController.cs:105-117 | a valid product is stored under the next identity value, whatever id the form held; an invalid one shows the form and changes nothing |
| ProductsController.Edit | ValueFurniture/Controllers/ProductsController.cs:150-162 | a valid product replaces the stored one with its id (the keys stay the same); an unknown id crashes; an invalid product shows the form again; changes nothing unless it succeeds |
| ProductsController.DeleteConfirmed | ValueFurniture/Controllers/ProductsController.cs:194-201 | removes exactly that product; an unknown id crashes and changes nothing |

## Left out

- The Braintree gateway is not modelled. The sale's result and the
  transaction that `Show` looks up (with its status text) come in as inputs.
  A sale call that throws is the `SaleThrew` result. A refund call that throws
  is the `refundThrows` input of `OrderController.CancelConfirmed`. For
  instance, an order that was never paid has a null transaction id, and the
  refund for it may throw. The refund request comes out as an output; the
  refund's reply is not modelled. `New` and its client token are not part of
  this model, and neither is the unused `AddressAndPayment` GET.
- CheckoutController.Show: takes the transaction the gateway found. A lookup
  that throws, for an unknown id, is not modelled.
- Email and SMS become `Notice` values. Each notification that an action of
  the model adds with `AddNotification` is a string in that action's outcome.
  Message bodies, the user manager and the sending itself are not modelled.
- Identity and the session are inputs. The user id and name, the profile, the
  role test and the session variables are modelled; the roles, logins and
  seeding in `IdentityModels.cs` and the migrations are not.
- `DateTime.Now` and `Guid.NewGuid()` are inputs.
- Concurrency and EF context lifetimes are not modelled. Every action runs
  alone on one store, and each change takes effect at once. As a result,
  `Failed` removes the order even though the source never calls
  `SaveChanges` after removing it.
- Foreign keys and cascade deletes are not modelled. Deleting a product leaves
  its cart rows and order lines. Deleting an order leaves its lines.
- String comparisons are ordinal. In the database, `StartsWith`, `Contains`,
  `Equals` and `OrderBy` on names compare by the column's collation, which may
  be case-insensitive. The same collation decides every string key match that
  runs as a query. These include the cart id tests `CartId == ShoppingCartId`
  (ValueFurniture/POCO_Classes/ShoppingCart.cs:64, 97, 123, 140, 152, 167 and
  246) and the customer id tests `CustomerId == currentUser` and
  `CustomerId == currentUserId` (ValueFurniture/Controllers/OrderController.cs:202
  and ValueFurniture/Controllers/CheckoutController.cs:229). Here two cart ids or
  customer ids that differ only in letter case are different keys.
- Sorting.StringLe: compares Unicode scalar values. .NET's ordinal order
  compares UTF-16 code units, so a character outside the Basic Multilingual
  Plane sorts before U+E000–U+FFFF there but after them here. String lengths,
  by contrast, are counted in UTF-16 code units (`Entities.Utf16Length`).
- ShoppingCartController.RemoveFromCart: stock is an unbounded integer.
  `ProductQuantity++` wraps from 2^31 - 1 to -2^31 in the source; the
  stock-conservation clause does not model that.
- OrderController.CancelConfirmed: the restock is on unbounded integers and
  does not model the same 32-bit wrap-around of `ProductQuantity++`.
- ShoppingCarts.ShoppingCart.AddToCart: the row count is unbounded and does
  not model the 32-bit wrap-around of `Count++`. Nor do the sums behind
  `GetCount`, where SQL `SUM` over `int` would raise an overflow error.
- The controller actions take a `ShoppingCart` already obtained with
  `ShoppingCart.GetCart`, and the session write it makes is modelled by
  `GetCart` alone. The order of that write against an action's other steps is
  not modelled. For example, `ShoppingCartController.AddToCart` looks the
  product up with `Single` before calling `GetCart`, so an unknown id throws
  and leaves the session's cart id unwritten.
- `ShoppingCartController.HtmlEncode` covers the markup characters and the
  Latin-1 range only. Numeric entities for other characters are not modelled.
- `ModelState.IsValid` for products is an input of `ProductsController.Create`
  and `ProductsController.Edit`. The product's data annotations are not part
  of this model.
- Order validation at `SaveChanges` is modelled for the Order record only. The
  annotations on Product and OrderDetails are not part of this model.
- `OrderController.Create`, `Edit` and `Delete` (GET), the scaffolded CRUD
  pages, are not modelled. Neither are `GetAllOrders`, `ShowOrders`,
  `GetAllProducts`, `ShowProducts`, the Excel/PDF exports,
  `CategoriesController`, the DTOs and `CategoryMenu`.
- The views themselves are not modelled. Each action's result is the data it
  hands to its view, or the redirect it makes. The home page's queries are
  stated on products, and `IndexModel`, `PopularModel`,
  `HideUnavailableModel` and `BrowseModel` project them into view models.
- Money is an exact real number. The scale and rounding of SQL `decimal`
  columns are not modelled.
- CheckoutController.Cancel: does not model the gateway's refund reply. The
  source collects that reply's errors and then discards them, so the model's
  output is only the refund request.
