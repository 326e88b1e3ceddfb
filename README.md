# Storefront store and page derivations in Dafny

This project models the in-memory state of a mock single-page storefront and the pure
derivations the pages compute from it, and proves what those operations promise.

- **The store** (`context/StoreContext.tsx`). The catalogue, the cart, the current user
  and the order list live in class `Store.StoreProvider`. Its methods `AddToCart`,
  `RemoveFromCart`, `UpdateQuantity`, `ClearCart`, `Login`, `Logout`, `PlaceOrder`,
  `UpdateOrderStatus`, `AddProduct` and `DeleteProduct` replace those fields. The new
  values come from the pure transitions in module `StoreOps`. The class invariant is the
  cart invariant: at most one entry per product id, and every quantity at least one. Every
  cart operation keeps it. The cart is also read as a bag (`StoreOps.Quantity`: units held
  per product id), and each cart operation is stated as a change to that bag.
- **The catalogue view** (`pages/Home.tsx`). `Home.FilteredProducts` is an exact category
  filter (or none, for 'All') followed by a stable sort. The sort orders by rising price,
  by falling price, or puts new products first. All three comparators are a difference of
  integer keys (`Home.CompareIsKeyDifference`). The sort is a stable insertion sort.
  `Home.IsStableSortOf` states what a stable sort promises: the list is in key order, and
  the products with any one key keep their input order. `Home.StableSortUnique` proves
  that only one list meets this. So any stable sort, including the `Array.prototype.sort`
  that section 22.1.3.27 of ECMA-262 (2019 edition) requires, gives the same list.
- **The cart page** (`pages/Cart.tsx`): the subtotal, the shipping charge, the total, and
  the quantities the minus and plus buttons ask for.
- **The checkout page** (`pages/Checkout.tsx`): its total and the order draft it builds.
  Class `Checkout.CheckoutPage` holds the form, the payment-modal flag and the PIN. Its
  submit and payment handlers call the store.
- **The admin dashboard** (`pages/AdminDashboard.tsx`): the sales and order-count figures,
  and the add-product form with its guard. Class `Admin.AdminDashboard` holds the modal
  flag and the form. The status selector offers four statuses.

Clock readings (`Date.now()`, the ISO date) are string parameters named `now`, `txnNow`
and `date`. The model builds the `ORD-`, `TXN-` and user ids from them as the source does.
Ids are strings. Prices, stock, quantities and totals are unbounded integers. Ratings are
reals.

## Model

| member | source | states |
|---|---|---|
| StoreOps.AddToCartExisting | context/StoreContext.tsx:70-72 | adding a product already in the cart keeps the length, adds one to that entry's quantity only, and leaves every other entry as it was |
| StoreOps.AddToCartAbsent | context/StoreContext.tsx:74 | adding a product not in the cart appends exactly one entry of quantity 1 at the end |
| StoreOps.AddToCartTwice | context/StoreContext.tsx:68-76 | adding the same new product twice gives one entry of quantity 2, not two entries |
| StoreOps.AddToCartQuantity | context/StoreContext.tsx:68-76 | in the bag view, adding raises the product's unit count by one and leaves every other product's count alone |
| StoreOps.AddToCartValid | context/StoreContext.tsx:68-76 | adding keeps ids distinct and every quantity at least 1 |
| StoreOps.RemoveFromCartSpec | context/StoreContext.tsx:78-80 | after removal no entry has that id; every entry with another id survives; nothing new appears |
| StoreOps.RemoveFromCartConcat | context/StoreContext.tsx:79 | removal distributes over concatenation, so the survivors keep their relative order |
| StoreOps.RemoveFromCartAbsent | context/StoreContext.tsx:79 | removing an absent id leaves the cart unchanged |
| StoreOps.RemoveFromCartQuantity | context/StoreContext.tsx:79 | in the bag view, removal zeroes that product's count and leaves every other count alone |
| StoreOps.RemoveFromCartValid | context/StoreContext.tsx:79 | removal keeps ids distinct and quantities at least 1 |
| StoreOps.UpdateQuantitySpec | context/StoreContext.tsx:82-85 | a quantity below 1 changes nothing; otherwise only entries with that id take the new quantity; an absent id is a no-op; the length never changes |
| StoreOps.UpdateQuantityQuantity | context/StoreContext.tsx:84 | in the bag view, an accepted update sets the product's count to the new quantity and leaves every other count alone |
| StoreOps.UpdateQuantityValid | context/StoreContext.tsx:82-85 | the update keeps ids distinct and quantities at least 1 |
| StoreOps.NewUser | context/StoreContext.tsx:89-97 | the synthesised user has the given email and role, an id from the clock, the placeholder phone and address, and is named "Admin User" for the admin role and "Rahim Ahmed" for the customer role |
| StoreOps.OrderId | context/StoreContext.tsx:110 | the order id is "ORD-" followed by the clock reading |
| StoreOps.PlaceOrderSpec | context/StoreContext.tsx:107-115 | placing prepends exactly one order; it is Pending; it is Unpaid exactly when the method is COD; its draft fields are the draft unchanged; the earlier orders follow in their order |
| StoreOps.SetOrderStatusSpec | context/StoreContext.tsx:119-121 | a status update keeps the length and every field but status; only orders with that id change status; an absent id is a no-op |
| StoreOps.DeleteProductSpec | context/StoreContext.tsx:127-129 | after deletion no product has that id; every other product survives in order; an absent id leaves the catalogue unchanged; the length is kept exactly when no product has the id |
| Store.StoreProvider.constructor | context/StoreContext.tsx:26-31 | the store starts with the initial catalogue, an empty cart, no user and no orders |
| Store.StoreProvider.AddToCart | context/StoreContext.tsx:68-76 | the cart becomes the add transition of the old cart, keeps its invariant, and gains one unit of the product in the bag view |
| Store.StoreProvider.RemoveFromCart | context/StoreContext.tsx:78-80 | the cart loses every entry with the id, keeps its invariant, and every other product's count is unchanged |
| Store.StoreProvider.UpdateQuantity | context/StoreContext.tsx:82-85 | a quantity below 1 or an absent id leaves the cart as it was; otherwise the product's count becomes the quantity; the invariant holds |
| Store.StoreProvider.ClearCart | context/StoreContext.tsx:87 | the cart is empty |
| Store.StoreProvider.Login | context/StoreContext.tsx:89-100 | the current user is replaced by the synthesised user, whatever was there before |
| Store.StoreProvider.Logout | context/StoreContext.tsx:102-105 | no user is logged in afterwards |
| Store.StoreProvider.PlaceOrder | context/StoreContext.tsx:107-117 | the new order is in front, Pending, with the payment status the method implies and the draft unchanged; the earlier orders follow; the cart is empty |
| Store.StoreProvider.UpdateOrderStatus | context/StoreContext.tsx:119-121 | the order list keeps its length, and each order differs from the old one at most in its status |
| Store.StoreProvider.AddProduct | context/StoreContext.tsx:123-125 | the product stands in front of the old catalogue |
| Store.StoreProvider.DeleteProduct | context/StoreContext.tsx:127-129 | no product with that id remains; an absent id leaves the catalogue as it was |
| Home.FilterCategorySpec | pages/Home.tsx:17-19 | 'All' keeps every product; a category keeps only and all of its products, in their catalogue order (the filter distributes over concatenation); a category with no products gives an empty list |
| Home.CompareIsKeyDifference | pages/Home.tsx:22-29 | each of the three comparators is the difference of the ordering's keys: price, negated price, or 0 for new and 1 for other products |
| Home.SortProductsIsStable | pages/Home.tsx:22-29 | the sort's output is in key order, each key's products keep their input order, and it is a permutation of the input |
| Home.StableSortUnique | pages/Home.tsx:22-29 | two sorted lists whose products of each key come in the same order are equal, so a stable sort's result is unique |
| Home.SortProductsIsTheStableSort | pages/Home.tsx:22-29 | any list that is a stable sort of the input equals the insertion sort's result |
| Home.SortProductsIdempotent | pages/Home.tsx:22-29 | sorting the sorted list again returns it unchanged |
| Home.FilteredProductsSpec | pages/Home.tsx:13-32 | the page's list is a permutation and a stable sort of the filtered list: prices non-decreasing for low-to-high, non-increasing for high-to-low, every new product before every other one for newest |
| Home.FilteredProductsIdempotent | pages/Home.tsx:13-32 | recomputing the list from its own output with the same category and ordering gives it back |
| Home.PriceSortExample | pages/Home.tsx:22-25 | prices 500, 100, 300 sort to 100, 300, 500 ascending and 500, 300, 100 descending |
| CartPage.SubtotalConcat | pages/Cart.tsx:10 | the subtotal of two carts laid end to end is the sum of their subtotals |
| CartPage.SubtotalNonNegative | pages/Cart.tsx:10 | with no negative price or quantity the subtotal is at least 0 |
| CartPage.CartTotalSpec | pages/Cart.tsx:11-12 | the total is the subtotal plus 60 when the subtotal is positive and the subtotal alone otherwise; an empty cart totals 0 |
| CartPage.SubtotalAfterAdd | pages/Cart.tsx:10 | adding a product raises the subtotal by the unit price of the existing entry, or by the product's price for a new entry |
| CartPage.SubtotalAfterUpdate | pages/Cart.tsx:10 | an accepted quantity update changes the subtotal by the unit price times the change in quantity |
| CartPage.QuantityButtonsTakeEffect | pages/Cart.tsx:49-62 | minus is disabled exactly at quantity 1; minus and plus never ask for less than 1, so the store applies them: the count goes down or up by one |
| Checkout.CheckoutTotalVersusCartTotal | pages/Checkout.tsx:22-23 | the checkout total is always the cart-page subtotal plus 60; it equals the cart page's total on a positive subtotal and exceeds it by 60 otherwise |
| Checkout.InitialForm | pages/Checkout.tsx:10-16 | the form starts from the user's name, phone and address, or empty strings without a user; city Dhaka; method bKash |
| Checkout.HandlerStatusAgreesWithStore | pages/Checkout.tsx:31-55 | the store keeps the status literal a handler passes, and the order has a transaction id exactly when it is marked paid, exactly when that literal is Paid for a wallet method or Unpaid for COD |
| Checkout.CodBehindModalExample | pages/Checkout.tsx:44-55 | the Paid path with COD selected gives an order the store marks Unpaid that still carries a `TXN-` id |
| Checkout.CheckoutOrderConsistent | pages/Checkout.tsx:48-56 | the filed order carries the cart, the checkout total, the user's id when set and non-empty and "guest" otherwise, and the address, ", " and the city; it is Unpaid exactly for COD; it has the `TXN-` id exactly when the handler passed Paid |
| Checkout.CodOrderExample | pages/Checkout.tsx:22-56 | two units at 1250 paid COD give an order of total 2560, Unpaid, with no transaction id |
| Checkout.CheckoutPage.constructor | pages/Checkout.tsx:10-20 | the page starts with the initial form, the modal closed, not processing, and an empty PIN |
| Checkout.CheckoutPage.SelectPaymentMethod | pages/Checkout.tsx:152-182 | the radio buttons set only the payment method, whether or not the payment modal is open |
| Checkout.CheckoutPage.EditDeliveryDetails | pages/Checkout.tsx:80-108 | the inputs set name, phone, address and city |
| Checkout.CheckoutPage.HandlePlaceOrder | pages/Checkout.tsx:48-56 | the store files the draft built from the current user, cart and form, and the cart is empty |
| Checkout.CheckoutPage.HandleSubmit | pages/Checkout.tsx:29-36 | with name, phone and address filled in, COD files the order at once, Unpaid, without a transaction id, and empties the cart; any other method opens the modal and changes neither orders nor cart |
| Checkout.CheckoutPage.EditPin | pages/Checkout.tsx:225-226 | the PIN input sets the PIN |
| Checkout.CheckoutPage.CancelPayment | pages/Checkout.tsx:209 | closing the modal leaves it closed |
| Checkout.CheckoutPage.HandlePaymentSubmit | pages/Checkout.tsx:38-46 | once the delay is over, the order is filed with the transaction id and the payment status the store derives from the method, the cart is empty, and the modal is closed and not processing |
| Admin.TotalSalesConcat | pages/AdminDashboard.tsx:12 | the sales of two order lists laid end to end add up |
| Admin.TotalsAfterPlaceOrder | pages/AdminDashboard.tsx:12-13 | placing an order adds one to the order count and the order's total to the sales |
| Admin.TotalsAfterStatusChange | pages/AdminDashboard.tsx:12-13 | a status change leaves the sales and the order count as they were |
| Admin.TotalSalesNonNegative | pages/AdminDashboard.tsx:12 | with no negative order total the sales figure is at least 0 |
| Admin.ProductFromForm | pages/AdminDashboard.tsx:37-44 | the built product has rating 0 and review count 0 whatever the form held |
| Admin.AddFromFormSpec | pages/AdminDashboard.tsx:35-48 | save adds one product exactly when name, price and image are truthy; the product then stands first, with the clock id, the typed name, price, image and category, and zero rating and reviews; otherwise the catalogue is unchanged |
| Admin.PresetFormsIncomplete | pages/AdminDashboard.tsx:28-46 | neither the initial form nor the reset form passes the guard |
| Admin.TypedFormIsComplete | pages/AdminDashboard.tsx:241-273 | typing a non-empty name, then a non-zero price, then a non-empty image into any form makes it pass the guard |
| Admin.SelectorNeverCancels | pages/AdminDashboard.tsx:179-188 | a status chosen from the four offered ones never makes an order Cancelled that was not Cancelled before |
| Admin.AdminDashboard.constructor | pages/AdminDashboard.tsx:27-33 | the modal starts closed and the form holds Panjabi, stock 10, rating 5 and no reviews |
| Admin.AdminDashboard.OpenAddModal | pages/AdminDashboard.tsx:104 | the add modal is open |
| Admin.AdminDashboard.CloseAddModal | pages/AdminDashboard.tsx:275 | the add modal is closed |
| Admin.AdminDashboard.Edit | pages/AdminDashboard.tsx:241-273 | each input writes its own field of the form |
| Admin.AdminDashboard.HandleAddProduct | pages/AdminDashboard.tsx:35-48 | with a complete form the product goes in front, the modal closes and the form is reset to the category alone; otherwise catalogue, modal and form are unchanged |
| Admin.AdminDashboard.SelectOrderStatus | pages/AdminDashboard.tsx:179-188 | the store updates the order's status; no order becomes Cancelled; the sales figure is unchanged |
| Admin.AdminDashboard.DeleteClicked | pages/AdminDashboard.tsx:132 | the store deletes every product with that id |

The transitions themselves (`StoreOps.AddToCart`, `RemoveFromCart`, `UpdateQuantity`,
`PlaceOrder`, `SetOrderStatus`, `AddProduct`, `DeleteProduct`), `Home.FilteredProducts`,
`CartPage.Subtotal`, `CartPage.CartTotal`, `Checkout.CheckoutTotal`, `Checkout.BuildDraft`,
`Admin.TotalSales` and `Admin.TotalOrders` are plain functions. The lemmas above state
their properties.

Where the code and its description differ, this model follows the code:
- The checkout page charges the flat 60 even on a zero subtotal. The cart page charges it
  only on a positive subtotal.
- The "newest" ordering is a stable partition on the `isNew` flag, not a sort by date.
- `user?.id || 'guest'` also falls back to "guest" for a user whose id is empty.
- The payment modal's overlay blocks clicks but not keyboard input. So cash on delivery can be chosen while the modal is open. The modal then files through the Paid path, and the order is Unpaid with a transaction id (`Checkout.CodBehindModalExample`).
- The add-product guard rejects a price of 0 but accepts a negative price, as JavaScript
  truthiness does.

## Left out

- Loading from and saving to local storage, and the JSON encoding (`context/StoreContext.tsx:34-56`, `99`, `104`): browser I/O. The model starts from the provider's initial values.
- Dark mode and its document class toggling (`context/StoreContext.tsx:58-66`): DOM side effects.
- The `useStore` provider check, `useMemo`/`useEffect` scheduling, routing, `alert` and `navigate`: framework plumbing.
- The checkout redirect when the cart is empty (`pages/Checkout.tsx:25-27`): UI navigation. The model lets a submit go ahead on an empty cart.
- Checkout.CheckoutPage.HandlePaymentSubmit: the two-second `setTimeout` is collapsed. The method shows the state after the timer has fired, and `isProcessing` is never seen true. Closing the modal with its × during the delay does not stop the timer, which still files the order. The model does not capture that interleaving.
- Admin.ProductFromForm: `Number(undefined)` gives NaN for a stock the form never received, for example after a reset. An int has no NaN, so the model stores 0 there. An undefined description becomes the empty string.
- The `Number(...)` coercion of typed text, which can yield NaN: the price and stock edits take integers.
- Navbar rendering and search, the product card's float discount percentage, the product details lookup, the login page's branching, and the fixture catalogue: outside the modelled core. The Navbar's cart item count is not modelled. The same bag view is `StoreOps.Quantity` per product.
