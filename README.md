# pares-pos in Dafny

A model of the core of pares-pos, a point-of-sale system for a pares
restaurant. The system has an Express/MongoDB backend and React pages for
the counter, the admin dashboard and reports. The model covers:

- **The catalog.** The product schema, and the create / list-active /
  update / delete endpoints over a product collection keyed by `_id`.
- **Orders.** Creating an order, and listing orders, either all of them or
  one business day in UTC+08:00, newest first. A day's window runs from
  `D 00:00:00+08:00` to `D 23:59:59+08:00`, both ends inclusive.
- **The counter screen.** The cart and its operations, the running total,
  the cash field and its change, the checkout guard and payload, and the
  daily sales panel. It is a `class Register` whose methods reassign its
  fields.
- **The admin pages.**
  - The dashboard's order URL and its daily total.
  - The product page: its category-then-name sort (an in-place sort of an
    `array`), the case-insensitive search, the category badge colours, and
    the add/edit form. The form is a `class ProductEditor`, and the model
    also gives the request the form submits.
- **The sales and reports pages.** The daily item count, and the weekly
  chart's seven day slots filled by an array loop.
- **Users and login.** The user schema, the user endpoints over a user
  collection kept with unique usernames (`class UserTable`), and the login
  decision. Login looks up the username, compares the password as a plain
  string and signs the claims `{id, username, role}` for `8h`.

The model's conventions:

- Instants are integer milliseconds since 1970-01-01T00:00:00Z.
- A calendar date is a day number counted from 1970-01-01.
- Prices and totals are whole pesos (`int`).
- Document ids are strings. A new id, the clock, the outcome of a database
  write and the JWT signer are parameters.
- A fetch is modelled by its request and by the reply it is given.

Files: `wrappers.dfy` (Option, Result), `text.dfy` (string order, substring,
lower-casing), `orders.dfy` (the order document and its sums), then one
module per source file: `product_model.dfy`, `product_controller.dfy`,
`order_controller.dfy`, `counter_pos.dfy`, `counter_sales.dfy`,
`admin_page.dfy`, `admin_products.dfy`, `reports_page.dfy`,
`user_model.dfy`, `user_routes.dfy` and `auth_controller.dfy`.

## Model

| member | source | states |
|---|---|---|
| Text.StrLeTotal | frontend/src/pages/AdminProducts.jsx:29-34 | any two names or categories compare one way or the other |
| Text.StrLeTransitive | frontend/src/pages/AdminProducts.jsx:29-34 | the string order used for sorting is transitive |
| Text.StrLeAntisymmetric | frontend/src/pages/AdminProducts.jsx:29-34 | two strings that each sort no later than the other are equal |
| Text.ContainsIff | frontend/src/pages/AdminProducts.jsx:139-140 | `includes` holds exactly when the term occurs at some position |
| Text.Lower | frontend/src/pages/AdminProducts.jsx:137 | lower-casing keeps the length and lowers each letter A-Z by itself |
| Text.LowerIdempotent | frontend/src/pages/AdminProducts.jsx:137 | lower-casing twice is lower-casing once |
| Orders.SalesTotalAppend | frontend/src/pages/CounterPOS.jsx:120 | the sales total of two listings joined is the sum of their totals |
| Orders.SalesTotalPermutation | frontend/src/pages/AdminPage.jsx:35 | the sales total of a listing does not depend on the order of its orders |
| Orders.SalesTotal | frontend/src/pages/AdminPage.jsx:35 | defined as the sum of the orders' totals, the `reduce` of the dashboard and of the counter's sales panel (CounterPOS.jsx:120) |
| ProductModel.NewProduct | backend/src/models/Product.js:3-15 | a product is created iff the name is present and non-empty, the price is present and the category is one of the five; then the fields are the given ones and `isActive` defaults to true; otherwise the failure names `name` exactly when the name is absent or empty, `price` exactly when the price is absent, and `category` exactly when the category is absent or not one of the five |
| ProductController.InsertByName | backend/src/controllers/productController.js:25 | inserting into a name-sorted list gives a name-sorted permutation |
| ProductController.SortByName | backend/src/controllers/productController.js:25 | `sort({ name: 1 })` gives a name-sorted permutation of its input |
| ProductController.RevisedKeepsStatus | backend/src/controllers/productController.js:37-45 | the update never changes a product's `_id` or `isActive` |
| ProductController.RevisedWithStatusSetsStatus | backend/src/controllers/productController.js:37-45 | the corrected update takes `isActive` from the body when it is there, and otherwise is the update as written |
| ProductController.Revised | backend/src/controllers/productController.js:37-43 | the document after the update: name, price and category from the body where present; its properties are RevisedKeepsStatus and EditRoundTrip |
| ProductController.RevisedWithStatus | backend/src/controllers/productController.js:37-43 | the corrected update, which also takes `isActive` from the body; its property is RevisedWithStatusSetsStatus |
| ProductController.Catalog.CreateProduct | backend/src/controllers/productController.js:4-20 | name, price and category from the body, `isActive` forced to true; a schema failure, any other store error (with its message) or a taken `_id` replies 500 and stores nothing; otherwise 201 with the stored product |
| ProductController.Catalog.GetProducts | backend/src/controllers/productController.js:23-31 | exactly the active products, each once, sorted by name; a store error replies 500 with its message |
| ProductController.Catalog.UpdateProduct | backend/src/controllers/productController.js:34-54 | a store error replies 500 with its message and changes nothing; a missing id replies 404 and changes nothing; otherwise name, price and category are replaced where the body has them, everything else is kept, and the new product is returned |
| ProductController.Catalog.UpdateProductWithStatus | backend/src/controllers/productController.js:34-54 | the corrected update: as above, and `isActive` is also taken from the body |
| ProductController.Catalog.DeleteProduct | backend/src/controllers/productController.js:57-68 | removes the id if present and replies "Product deleted" whether or not it was; a store error replies 500 with its message and removes nothing |
| ProductController.DeleteTwice | backend/src/controllers/productController.js:59-68 | deleting the same id twice leaves the collection as one delete does |
| OrderController.Select | backend/src/controllers/orderController.js:44-54 | the filter keeps exactly the orders it admits |
| OrderController.SelectAll | backend/src/controllers/orderController.js:44-46 | without a date the filter keeps every order, in order |
| OrderController.WindowStart | backend/src/controllers/orderController.js:48 | `D 00:00:00+08:00` is an instant of Manila day D at exactly midnight |
| OrderController.WindowEnd | backend/src/controllers/orderController.js:49 | `D 23:59:59+08:00` is an instant of Manila day D, one second before the next midnight |
| OrderController.WindowGap | backend/src/controllers/orderController.js:48-51 | a day's window spans 24 hours less one second and ends one second before the next day's window starts |
| OrderController.WindowsDisjoint | backend/src/controllers/orderController.js:48-51 | no instant is listed under two days |
| OrderController.GapInNoDay | backend/src/controllers/orderController.js:48-51 | an instant after 23:59:59 and before midnight is listed under no day |
| OrderController.HalfSecondBeforeMidnight | backend/src/controllers/orderController.js:49-51 | an order at 23:59:59.500 local time is in no daily listing |
| OrderController.StampAsWritten | backend/src/controllers/orderController.js:13-17 | the stamp as written lies 8 hours minus the server's offset away from the intended one |
| OrderController.Stamp | backend/src/controllers/orderController.js:13-17 | the intended stamp is the order's instant cut down to its whole second |
| OrderController.StampListedUnderItsDay | backend/src/controllers/orderController.js:13-17 | with the intended stamp, every order is listed under the Manila day it was placed |
| OrderController.StampInManilaZone | backend/src/controllers/orderController.js:13-17 | on a server kept in Manila time, the stamp as written equals the intended one |
| OrderController.StampAsWrittenMisfiled | backend/src/controllers/orderController.js:13-17 | on a UTC server, an order taken at 17:00 Manila time is stored eight hours late and listed under the next day |
| OrderController.InsertByDate | backend/src/controllers/orderController.js:54 | inserting into a newest-first list gives a newest-first permutation |
| OrderController.SortByDateDesc | backend/src/controllers/orderController.js:54 | `sort({ date: -1 })` gives a newest-first permutation of its input |
| OrderController.NewOrder | backend/src/controllers/orderController.js:10-27 | the saved document carries the five body fields unchecked, and one instant in both `date` and `time` |
| OrderController.Ledger.CreateOrder | backend/src/controllers/orderController.js:8-35 | a saved order, stamped with the corrected `Stamp` of the clock, is appended and returned with 201; a failed save replies 500 "Server error" and stores nothing |
| OrderController.Ledger.GetOrders | backend/src/controllers/orderController.js:40-60 | a failed query replies 500 "Server error"; otherwise the listing is newest first; without a date it is a permutation of every order; with a date it is a permutation of exactly the orders in that day's window |
| OrderController.DayListingTotal | backend/src/controllers/orderController.js:40-55 | the peso total of a day's listing is the total of the orders in that day's window |
| CounterPOS.WithIncreased | frontend/src/pages/CounterPOS.jsx:57-63 | the lines for the id gain one; every other line and every product is unchanged |
| CounterPOS.WithDecreased | frontend/src/pages/CounterPOS.jsx:65-72 | the lines for the id get max(qty - 1, 1); no line is removed |
| CounterPOS.WithoutItem | frontend/src/pages/CounterPOS.jsx:74-76 | exactly the lines of other products remain |
| CounterPOS.WithoutAbsent | frontend/src/pages/CounterPOS.jsx:74-76 | removing an id with no line leaves the cart unchanged |
| CounterPOS.WithoutWellFormed | frontend/src/pages/CounterPOS.jsx:74-76 | removing keeps one line per product and quantities of at least 1 |
| CounterPOS.WithAdded | frontend/src/pages/CounterPOS.jsx:43-54 | a product already in the cart gains one on its line and keeps the price it was added with; a new product is appended with quantity 1; the product is in the cart afterwards |
| CounterPOS.HasLine | frontend/src/pages/CounterPOS.jsx:44 | `cart.find` on the id succeeds exactly when some line carries that product's id |
| CounterPOS.AddWellFormed | frontend/src/pages/CounterPOS.jsx:43-54 | adding keeps one line per product and quantities of at least 1 |
| CounterPOS.QtyWellFormed | frontend/src/pages/CounterPOS.jsx:57-72 | the quantity buttons keep the cart well formed |
| CounterPOS.TotalAmountAppend | frontend/src/pages/CounterPOS.jsx:79-82 | the total of two carts joined is the sum of their totals |
| CounterPOS.TotalAmount | frontend/src/pages/CounterPOS.jsx:79-82 | defined as the sum of price times quantity over the cart lines; its properties are the TotalAmount and TotalAfter lemmas |
| CounterPOS.TotalAmountReplace | frontend/src/pages/CounterPOS.jsx:79-82 | replacing one line changes the total by exactly that line's difference |
| CounterPOS.TotalAmountNonNegative | frontend/src/pages/CounterPOS.jsx:79-82 | with prices of at least 0, the total of a well-formed cart is at least 0 |
| CounterPOS.IncreaseOneLine | frontend/src/pages/CounterPOS.jsx:57-63 | in a well-formed cart, "+" changes exactly the one line of that product |
| CounterPOS.DecreaseOneLine | frontend/src/pages/CounterPOS.jsx:65-72 | in a well-formed cart, "-" changes exactly the one line of that product |
| CounterPOS.RemoveOneLine | frontend/src/pages/CounterPOS.jsx:74-76 | in a well-formed cart, removing drops exactly that line and keeps the order of the rest |
| CounterPOS.TotalAfterAddExisting | frontend/src/pages/CounterPOS.jsx:79-82 | adding a product already in the cart raises the total by that line's price |
| CounterPOS.TotalAfterAddNew | frontend/src/pages/CounterPOS.jsx:79-82 | adding a new product raises the total by its price |
| CounterPOS.TotalAfterDecrease | frontend/src/pages/CounterPOS.jsx:79-82 | "-" lowers the total by the line's price, or not at all at quantity 1 |
| CounterPOS.TotalAfterRemove | frontend/src/pages/CounterPOS.jsx:79-82 | removing a line lowers the total by that line's amount |
| CounterPOS.InCategory | frontend/src/pages/CounterPOS.jsx:37-40 | the category tab shows exactly the products of that category |
| CounterPOS.InCategoryAppend | frontend/src/pages/CounterPOS.jsx:37-40 | the category filter distributes over concatenation, so it keeps the list's order |
| CounterPOS.Snapshot | backend/src/models/Order.js:4-10 | a stored order line is the cart line's name, price and quantity |
| CounterPOS.SnapshotTotal | backend/src/models/Order.js:4-10 | the stored lines of an order add up to the cart's total |
| CounterPOS.CheckoutRequest | frontend/src/pages/CounterPOS.jsx:86-95 | refused iff cash is empty ("Please enter cash.") or below the total ("Not enough cash."); otherwise the payload is the cart, its total, the cash (at least the total), the stored change and the cashier |
| CounterPOS.EmptyCartAccepted | frontend/src/pages/CounterPOS.jsx:86-95 | an empty cart with any cash of at least 0 entered is sent as an order of total 0 |
| CounterPOS.FreshChange | frontend/src/pages/CounterPOS.jsx:202-206 | when the cash was typed against the current cart, the sent change is cash minus total and not negative |
| CounterPOS.SentTotalMatchesItems | frontend/src/pages/CounterPOS.jsx:89-95 | the total of every order sent equals the sum over its stored items |
| CounterPOS.Body | backend/src/models/Order.js:4-14 | the posted body keeps one stored line per cart line, summing to the cart total, and the request's total, cash, change and cashier |
| CounterPOS.CashierName | frontend/src/pages/CounterPOS.jsx:22 | the cashier is the stored username, or "Cashier" when none is stored |
| CounterPOS.Register.constructor | frontend/src/pages/CounterPOS.jsx:6-19 | category "PARES", an empty cart, an empty cash field, change 0, sales panel hidden |
| CounterPOS.Register.LoadProducts | frontend/src/pages/CounterPOS.jsx:25-30 | keeps the fetched list and shows its PARES products |
| CounterPOS.Register.FilterProducts | frontend/src/pages/CounterPOS.jsx:37-40 | selects the tab and shows that category's products |
| CounterPOS.Register.AddToCart | frontend/src/pages/CounterPOS.jsx:43-54 | the cart becomes WithAdded of the old cart and stays well formed |
| CounterPOS.Register.IncreaseQty | frontend/src/pages/CounterPOS.jsx:57-63 | the cart becomes WithIncreased of the old cart and stays well formed |
| CounterPOS.Register.DecreaseQty | frontend/src/pages/CounterPOS.jsx:65-72 | the cart becomes WithDecreased of the old cart, keeps its length and stays well formed |
| CounterPOS.Register.RemoveItem | frontend/src/pages/CounterPOS.jsx:74-76 | the cart becomes WithoutItem of the old cart and stays well formed |
| CounterPOS.Register.EnterCash | frontend/src/pages/CounterPOS.jsx:202-206 | stores the entry and sets change to entry minus the current total (empty counts as 0) |
| CounterPOS.Register.Checkout | frontend/src/pages/CounterPOS.jsx:85-109 | sends CheckoutRequest of the current state; cart, cash and change reset only when the order was sent and the reply was ok, otherwise nothing changes |
| CounterPOS.Register.LoadSales | frontend/src/pages/CounterPOS.jsx:112-124 | shows the fetched orders and their peso total |
| CounterPOS.CheckoutScenario | frontend/src/pages/CounterPOS.jsx:43-109 | two PARES at 120 and a drink at 25: cash 200 is refused as not enough, cash 300 sends total 265 with change 35 |
| CounterPOS.StaleChangeScenario | frontend/src/pages/CounterPOS.jsx:85-109 | cash 100 typed before a 30-peso item is added sends change 100, not cash minus total |
| CounterSales.QtySumAppend | frontend/src/pages/CounterSales.jsx:23 | the item count of two lists of lines joined is the sum of their counts |
| CounterSales.ItemCount | frontend/src/pages/CounterSales.jsx:86-89 | defined as the quantities of one order's lines summed; its properties are QtySumAppend and ItemCountAtLeastLines |
| CounterSales.DailyItemCount | frontend/src/pages/CounterSales.jsx:21-25 | defined as the item counts of the day's orders summed; its properties are DailyItemCountFlat and DailyItemCountAppend |
| CounterSales.DailyItemCountFlat | frontend/src/pages/CounterSales.jsx:21-25 | the daily count equals the quantities summed over all the day's lines at once |
| CounterSales.DailyItemCountAppend | frontend/src/pages/CounterSales.jsx:21-25 | the daily count of two listings joined is the sum of their counts |
| CounterSales.ItemCountAtLeastLines | frontend/src/pages/CounterSales.jsx:21-25 | with every quantity at least 1, the count is at least the number of lines |
| CounterSales.FetchOrders | frontend/src/pages/CounterSales.jsx:12-18 | no date: no request and the shown orders stay; otherwise it requests `/api/orders?date=D` from the deployed URL and shows the reply |
| AdminPage.OrdersUrl | frontend/src/pages/AdminPage.jsx:22-24 | the URL is the orders endpoint, with `?date=D` appended iff a date is set |
| AdminPage.DateRoundTrip | frontend/src/pages/AdminPage.jsx:22-24 | the date can be read back from the URL it produced |
| AdminPage.Refresh | frontend/src/pages/AdminPage.jsx:32-40 | a failed fetch leaves the dashboard as it was; a reply becomes the listing, with the sales total of that listing |
| AdminPage.RefreshKeepsConsistent | frontend/src/pages/AdminPage.jsx:15-41 | the shown total always equals the total of the shown orders |
| AdminPage.DailyDashboardTotal | frontend/src/pages/AdminPage.jsx:20-37 | after a day's listing arrives, the total shown is the total of the orders in that day's window |
| ReportsPage.DayDiffIsFloor | frontend/src/pages/ReportsPage.jsx:48 | the day difference is the floor of the elapsed time in days, also for future orders |
| ReportsPage.DayDiff | frontend/src/pages/ReportsPage.jsx:48 | defined as the elapsed time divided by a day, rounded down; its property is DayDiffIsFloor |
| ReportsPage.Slot | frontend/src/pages/ReportsPage.jsx:50-51 | an order within the week lands in one of the seven slots |
| ReportsPage.TodayInLastSlot | frontend/src/pages/ReportsPage.jsx:48-52 | an order from the last 24 hours lands in the last slot |
| ReportsPage.FutureOutsideWeek | frontend/src/pages/ReportsPage.jsx:48-52 | an order later than now lands in no slot |
| ReportsPage.OldOutsideWeek | frontend/src/pages/ReportsPage.jsx:48-52 | an order seven or more days old lands in no slot |
| ReportsPage.SlotTotal | frontend/src/pages/ReportsPage.jsx:46-53 | defined as the totals of the orders landing in slot k, summed; WeeklySales and SlotsAddUp state its properties |
| ReportsPage.SlotsAddUp | frontend/src/pages/ReportsPage.jsx:46-53 | the seven slots add up to the total of the orders within the week |
| ReportsPage.WeeklySales | frontend/src/pages/ReportsPage.jsx:36-55 | seven values, the k-th the total of the orders in slot k, summing to the week's total |
| ReportsPage.WeekLabels | frontend/src/pages/ReportsPage.jsx:40-44 | seven labels, for the days today - 6 up to today in increasing order |
| AdminProducts.AdminLeTotal | frontend/src/pages/AdminProducts.jsx:29-34 | the comparator orders any two products one way or the other |
| AdminProducts.AdminLe | frontend/src/pages/AdminProducts.jsx:29-34 | defined as category order, and name order within one category; its properties are AdminLeTotal and AdminLeTransitive |
| AdminProducts.AdminLeTransitive | frontend/src/pages/AdminProducts.jsx:29-34 | the category-then-name comparator is transitive |
| AdminProducts.NeighboursSortedIsSorted | frontend/src/pages/AdminProducts.jsx:29-34 | a list whose neighbours are in order is in order throughout |
| AdminProducts.CategoriesContiguous | frontend/src/pages/AdminProducts.jsx:29-34 | in the sorted list the products of one category stand together |
| AdminProducts.NamesOrderedWithinCategory | frontend/src/pages/AdminProducts.jsx:29-34 | within a category the sorted list is ordered by name |
| AdminProducts.SwapStep | frontend/src/pages/AdminProducts.jsx:29-34 | swapping an out-of-order neighbour pair keeps the elements and moves the disorder one place left |
| AdminProducts.SortProducts | frontend/src/pages/AdminProducts.jsx:29-34 | the array is sorted by category, then name, in place, and is a permutation of its old contents |
| AdminProducts.FilteredProducts | frontend/src/pages/AdminProducts.jsx:136-142 | the shown list is a subsequence of the products that keeps each product iff its lower-cased name or category contains the lower-cased term, with its multiplicity |
| AdminProducts.Matches | frontend/src/pages/AdminProducts.jsx:137-141 | defined as the lower-cased name or category containing the lower-cased term; its properties are SearchIgnoresCase and EmptySearchKeepsAll |
| AdminProducts.EmptySearchKeepsAll | frontend/src/pages/AdminProducts.jsx:136-142 | an empty search shows every product, in order |
| AdminProducts.SearchIgnoresCase | frontend/src/pages/AdminProducts.jsx:137-141 | lower-casing the term does not change what is shown |
| AdminProducts.FilterAppend | frontend/src/pages/AdminProducts.jsx:136-142 | filtering a concatenation filters each part |
| AdminProducts.CategoryBadgeColor | frontend/src/pages/AdminProducts.jsx:144-159 | the colour is grey "#6b7280" iff the category is not one of the five |
| AdminProducts.BadgeColorsDistinct | frontend/src/pages/AdminProducts.jsx:144-159 | the five categories get five different colours |
| AdminProducts.Payload | frontend/src/pages/AdminProducts.jsx:87-90 | the payload is the form's name, category and `isActive`, with the price as a number (empty is 0) |
| AdminProducts.SubmitRequest | frontend/src/pages/AdminProducts.jsx:82-90 | PUT to `/api/products/{id}` iff an id is being edited, otherwise POST to `/api/products`, with the payload as body |
| AdminProducts.RequestAddressesEditedProduct | frontend/src/pages/AdminProducts.jsx:82-85 | a PUT URL names exactly the edited id, and a POST names none |
| AdminProducts.FormOf | frontend/src/pages/AdminProducts.jsx:63-68 | defined as the product's name, price, category and `isActive`; its property is EditRoundTrip |
| AdminProducts.EditRoundTrip | frontend/src/pages/AdminProducts.jsx:61-90 | saving a product's own form unchanged leaves the stored product as it was |
| AdminProducts.DeactivationIgnored | backend/src/controllers/productController.js:37-45 | switching "Available in POS" off and saving sends `isActive: false`, yet the product stays active |
| AdminProducts.SaveAppliesForm | backend/src/controllers/productController.js:37-45 | with the corrected update, saving stores exactly the form's four fields |
| AdminProducts.ProductEditor.constructor | frontend/src/pages/AdminProducts.jsx:7-14 | a blank form, nothing edited, the modal hidden |
| AdminProducts.ProductEditor.OpenAddModal | frontend/src/pages/AdminProducts.jsx:49-58 | the form is {"", empty price, "PARES", true}, nothing is edited and the modal shows |
| AdminProducts.ProductEditor.HandleEdit | frontend/src/pages/AdminProducts.jsx:61-70 | the form is the product's four fields, its id is being edited and the modal shows |
| AdminProducts.ProductEditor.CloseModal | frontend/src/pages/AdminProducts.jsx:73-76 | the modal hides and no id is edited; the fields stay |
| AdminProducts.ProductEditor.SetName | frontend/src/pages/AdminProducts.jsx:291-293 | only the name changes |
| AdminProducts.ProductEditor.SetPrice | frontend/src/pages/AdminProducts.jsx:306-308 | only the price changes |
| AdminProducts.ProductEditor.SetCategory | frontend/src/pages/AdminProducts.jsx:317-319 | only the category changes |
| AdminProducts.ProductEditor.ToggleActive | frontend/src/pages/AdminProducts.jsx:339-341 | only `isActive` changes, to its negation |
| AdminProducts.ProductEditor.Submit | frontend/src/pages/AdminProducts.jsx:79-111 | sends SubmitRequest of the current form and id; an ok reply closes the modal, an error reply changes nothing |
| AdminProducts.EditAndSave | frontend/src/pages/AdminProducts.jsx:61-106 | edit then save unchanged sends a PUT for that id that leaves the product as it was, and closes the modal |
| UserModel.NewUser | backend/src/models/User.js:3-10 | a user is created iff username and password are present and non-empty and the role, if given, is "admin" or "cashier"; the password is stored as given and the role defaults to "cashier"; a failure names `username`, `password` and `role` each exactly when that field fails |
| UserModel.UnknownRoleRefused | backend/src/models/User.js:7 | any other role is refused, with only `role` blamed |
| UserRoutes.WithoutId | backend/src/routes/userRoutes.js:36 | exactly the users with other ids remain; an absent id changes nothing |
| UserRoutes.WithoutIdUnique | backend/src/routes/userRoutes.js:36 | deleting keeps usernames unique |
| UserRoutes.WithoutIdUniqueIds | backend/src/routes/userRoutes.js:36 | deleting keeps ids unique |
| UserRoutes.WithoutIdRemovesOne | backend/src/routes/userRoutes.js:36 | with unique ids, deleting a present id removes exactly one user, as `findByIdAndDelete` removes one document |
| UserRoutes.UserTable.ListUsers | backend/src/routes/userRoutes.js:6-13 | every user, unfiltered; a failed query replies 500 "Failed to fetch users" |
| UserRoutes.UserTable.CreateUser | backend/src/routes/userRoutes.js:16-31 | role `role or "cashier"`; a schema failure, a store failure, a taken username or a taken `_id` replies 400 "Failed to create user" and stores nothing; otherwise "User created" and the user is appended; usernames and ids stay unique |
| UserRoutes.UserTable.DeleteUser | backend/src/routes/userRoutes.js:34-41 | removes the user with that id and replies "User deleted", also when the id is absent; a present id removes exactly one user; usernames and ids stay unique; a failed query replies 400 and changes nothing |
| UserRoutes.CreateCashier | backend/src/routes/userRoutes.js:18-26 | a create with no role or an empty one stores a cashier |
| UserRoutes.CreateDuplicate | backend/src/routes/userRoutes.js:20-30 | a create with a taken username replies 400 and changes nothing, whether or not the store works |
| AuthController.FindByUsername | backend/src/controllers/authController.js:9 | finds a user iff one has that username, and the user found has it |
| AuthController.FindUnique | backend/src/controllers/authController.js:9 | with unique usernames the lookup finds the one user of that name |
| AuthController.Login | backend/src/controllers/authController.js:5-44 | a lookup error replies 500; an unknown name or a wrong password replies 400 "Invalid username or password"; a known name with the right password replies 500 with the signer's error when signing fails, and otherwise logs in; a login replies "Login successful", the token signed over {id, username, role} for "8h", and the user's {id, username, role} without the password |
| AuthController.LoginSucceedsIff | backend/src/controllers/authController.js:9-38 | with unique usernames and a working signer, login succeeds iff some user has both that name and that password, and the reply is about that user |
| AuthController.FailuresIndistinguishable | backend/src/controllers/authController.js:10-17 | an unknown name and a wrong password get the identical reply |
| AuthController.CreateThenLogin | backend/src/routes/userRoutes.js:16-26 | a user just created can log in with the same name and password, and logs in as the new id |

## Left out

- **I/O and the browser.**
  - Network I/O, React rendering, `alert`/`confirm` dialogs, navigation,
    loading flags, `localStorage` and the `Authorization` header are left
    out. A fetch is modelled by its request and the reply it is given.
  - CounterPOS.Register.LoadSales and CounterSales.FetchOrders: the reply is
    always a list of orders. A reply that is not an array, such as the
    `{ message, error }` body of a 500 from the order endpoints, is not
    modelled. The counter would store it as the sales list and then throw
    in `reduce` (CounterPOS.jsx:118-120), leaving the total stale. The sales
    page would store it and fail when rendering. The dashboard's `Refresh`
    does model this case: its `reduce` throws before anything is set, so the
    view is left as it was.
  - `handleDelete` on the product page (a confirmed DELETE followed by a
    reload) is left out as well; the DELETE it sends is `DeleteProduct`.
- **Dates and numbers.**
  - Parsing the date strings `YYYY-MM-DD` is left out: days are day
    numbers.
  - Formatting is left out: the weekday labels, `formatPHTime`, and the
    counter's default sales date from `toISOString`.
  - The monthly chart (`fetchMonthlySales`) is left out. Its endpoint
    `/api/orders/monthly` names a `getMonthlyReport` that
    `backend/src/controllers/orderController.js` does not define, so there
    is no behaviour to model.
  - Floating-point prices and totals are left out: amounts are whole
    pesos.
  - `Number` applied to non-numeric text is left out; the number inputs
    only produce numbers or the empty string.
- **Text.StrLe**: `localeCompare` is approximated by code-point order;
  locale collation is not modelled.
- **Text.Lower**: the model's `Lower` lowers only A-Z. JavaScript's
  `toLowerCase` also lowers every other Unicode cased letter (such as "Ñ"),
  which is not modelled.
- **MongoDB.**
  - Only the effect of the query is modelled: which documents match, their
    order and the write.
  - Cast errors on malformed ids are not told apart from other store errors.
    Every endpoint takes the store's failure as a parameter: `dbError` (the
    error's message) for the product endpoints, `dbOk` for the user
    endpoints, and `saveOk` and `findOk` for the order endpoints.
  - New `_id`s are parameters.
  - The order in which `User.find()` returns documents is modelled as
    insertion order.
  - The sort is `sort` on values. The engine's algorithm and its stability
    are not modelled: `SortProducts` is an insertion sort that meets the same
    contract.
- **ProductController.Catalog.UpdateProduct**: a field absent from the body
  keeps its value. Mongoose of recent versions drops `undefined` keys from an
  update, and older behaviour is not modelled.
- OrderController.Ledger.CreateOrder: stores the corrected `Stamp` of the
  clock, not the code's `StampAsWritten`, so the model's orders are listed
  under the Manila day they were placed (see Findings).
- **Timestamps.** The `createdAt` and `updatedAt` fields that
  `{ timestamps: true }` adds to products (`backend/src/models/Product.js:14`)
  and users (`backend/src/models/User.js:9`) are not modelled: nothing in the
  core reads them. `Order.js`'s own defaults for `date` and `time` are
  overridden by the controller, and are not modelled. The stored `time` is
  the same instant as `date`.
- **AuthController.Login**:
  - JWT signing is a parameter `sign`, so the token's encoding and secret
    are not modelled.
  - Non-string JSON in the request body and a missing username or password
    are not modelled: both are strings.
- **The counter's `change`.** It is recomputed only when cash is typed, so
  it is stale when the cart changes afterwards. The model keeps this
  (`CounterPOS.StaleChangeScenario` exhibits it). The displayed
  `change > 0 ? change : 0` is formatting and is left out.
- **The admin product list.** It is fetched from `GET /api/products`, which
  returns only active products, so inactive products never appear there.
  The model covers this through `GetProducts`.

## Findings

| source | as written | input that shows it | evidently intended | confidence | as-written member | corrected member |
|---|---|---|---|---|---|---|
| backend/src/controllers/productController.js:37-45 | the update sets only name, price and category, so the `isActive` the admin form sends is dropped | an active product, "Available in POS" switched off, saved: it stays active | saving the form sets the availability too, as the page's switch and its "deactivate menu items" subtitle promise | medium; not executed | AdminProducts.DeactivationIgnored | AdminProducts.SaveAppliesForm |
| backend/src/controllers/orderController.js:13-17 | the Manila wall-clock reading is parsed back as server-local time, which shifts the stored instant by 8 hours minus the server's offset | a server kept in UTC; an order at 17:00 Manila time on 2024-10-04 is stored as 01:00 on 2024-10-05 Manila time and listed under 2024-10-05 | store the moment of the order, so that it is listed under the Manila day it was placed | medium; not executed | OrderController.StampAsWrittenMisfiled | OrderController.StampListedUnderItsDay |

The corrected update is `ProductController.Catalog.UpdateProductWithStatus`,
beside the as-written `UpdateProduct`. `OrderController.Ledger.CreateOrder`
stamps an order with the corrected `Stamp`. The stamp as written is
`StampAsWritten`; on a server kept in Manila time it is the same instant
(`StampInManilaZone`).
