# jvlcart storefront: products state and order pricing

This project models the two parts of the jvlcart storefront whose behaviour
can be stated exactly, and proves properties of them in Dafny.

- **The `products` slice** (`frontend/src/slices/productsSlice.js`): the
  Redux state behind the product listing pages and the admin product table.
  It has the fields `loading`, `products`, `productsCount`, `resPerPage` and
  `error`, and seven case reducers. Module `ProductsSlice` models the state as a datatype in
  which a key the reducer's object literal leaves out is `None` (or `Absent`
  for `error`). `clearAdminError` writes `error: null`, which is kept apart as
  `Null`. A key that a literal writes with the value `undefined`, such as
  `productsCount` when the payload has no `count`, is treated the same as a
  missing key, so equality of two states means equality of the fields as
  read, not of the objects' key sets. Each case reducer is a function. `Reduce` dispatches an action to
  them, and `ReduceAll` folds a log of actions, so that properties of whole
  action histories can be stated.
- **The checkout price breakdown** (`frontend/src/components/cart/ConfirmOrder.js`,
  lines 21-38). Module `OrderPricing` covers:
  - the items subtotal, an `Array.reduce` over the cart;
  - a shipping charge of 1 that is waived strictly above 200;
  - a 5% tax;
  - the grand total;
  - the order record that carries these values.

  Amounts are exact rationals (`real`), and a cart line is `(price, quantity)`.

Module `Wrappers` holds the `Option` type used for keys that may be absent.

## Model

| member | source | states |
|---|---|---|
| `ProductsSlice.InitialState` | frontend/src/slices/productsSlice.js:5-7 | the initial state is not loading and has no products, count, page size or error |
| `ProductsSlice.ProductsRequest` | frontend/src/slices/productsSlice.js:9-13 | whatever the old state, the result is loading with no data and no error key |
| `ProductsSlice.ProductsSuccess` | frontend/src/slices/productsSlice.js:14-21 | not loading, no error; products, count and page size are exactly the payload's `products`, `count` and `resPerPage` |
| `ProductsSlice.ProductsFail` | frontend/src/slices/productsSlice.js:22-27 | not loading, no data, and the error is exactly the payload |
| `ProductsSlice.AdminProductsRequest` | frontend/src/slices/productsSlice.js:28-32 | loading with no data and no error key, a consistent state |
| `ProductsSlice.AdminProductsSuccess` | frontend/src/slices/productsSlice.js:33-38 | products are the payload's; count and page size are never set, even if the old state or the payload had them |
| `ProductsSlice.AdminProductsFail` | frontend/src/slices/productsSlice.js:39-44 | not loading, no data, and the error is exactly the payload, a consistent state |
| `ProductsSlice.ClearAdminError` | frontend/src/slices/productsSlice.js:45-50 | `error` becomes `null`; `loading`, products, count and page size are unchanged; a consistent state stays consistent |
| `ProductsSlice.LastReset` | frontend/src/slices/productsSlice.js:9-44 | the result is an action of the log other than a clear or a foreign action, and no such action comes after it; with none, no action of the log is one |
| `ProductsSlice.LastOwnAction` | frontend/src/slices/productsSlice.js:9-50 | the result is an action of this slice in the log, and only foreign actions come after it; with none, every action in the log is foreign |
| `ProductsSlice.ResetIgnoresState` | frontend/src/slices/productsSlice.js:9-44 | every reducer except `clearAdminError` gives the same state from any two old states |
| `ProductsSlice.AdminRequestIsRequest` | frontend/src/slices/productsSlice.js:28-32 | `adminProductsRequest` and `productsRequest` agree on every state |
| `ProductsSlice.AdminFailIsFail` | frontend/src/slices/productsSlice.js:39-44 | `adminProductsFail` and `productsFail` agree on every state and message |
| `ProductsSlice.AdminSuccessDropsPaging` | frontend/src/slices/productsSlice.js:33-38 | the admin success keeps the same products as `productsSuccess`; the two results are equal exactly when the payload has no count and no page size |
| `ProductsSlice.ClearAdminErrorIdempotent` | frontend/src/slices/productsSlice.js:45-50 | clearing the error twice equals clearing it once |
| `ProductsSlice.ClearAdminErrorFixedPoints` | frontend/src/slices/productsSlice.js:45-50 | clearing leaves a state unchanged exactly when its error is already `null` |
| `ProductsSlice.ReducePreservesConsistent` | frontend/src/slices/productsSlice.js:9-50 | every transition keeps the state consistent: a loading state has no data and no error message, and an error message comes with no data and no loading |
| `ProductsSlice.ReduceAllSnoc` | frontend/src/slices/productsSlice.js:3-52 | dispatching a log and then one more action is the same as dispatching the longer log |
| `ProductsSlice.ReduceAllPreservesConsistent` | frontend/src/slices/productsSlice.js:9-50 | any log of actions keeps a consistent state consistent |
| `ProductsSlice.ReachableConsistent` | frontend/src/slices/productsSlice.js:5-50 | every state reachable from the initial state is consistent |
| `ProductsSlice.ResetForgetsHistory` | frontend/src/slices/productsSlice.js:9-50 | once a log holds an action other than a clear or a foreign action, the state it reaches does not depend on the starting state |
| `ProductsSlice.LoadingFollowsLastReset` | frontend/src/slices/productsSlice.js:9-50 | after any log, `loading` is true exactly when the most recent resetting action was a request; with none, it keeps its starting value |
| `ProductsSlice.ErrorFollowsLastAction` | frontend/src/slices/productsSlice.js:9-50 | after any log, the error key is the last failure's message, `null` after a clear, absent after other actions of the slice, and unchanged if the slice saw no action |
| `OrderPricing.FoldLinesIsSum` | frontend/src/components/cart/ConfirmOrder.js:21-24 | the reduce fold from accumulator `acc` equals `acc` plus the sum of price × quantity |
| `OrderPricing.SumCons` | frontend/src/components/cart/ConfirmOrder.js:21-24 | the sum of a cart with a first line added is that line's total plus the rest |
| `OrderPricing.ItemsPriceIsSum` | frontend/src/components/cart/ConfirmOrder.js:21-24 | `itemsPrice` is the sum of price × quantity over the cart lines |
| `OrderPricing.ItemsPriceEmpty` | frontend/src/components/cart/ConfirmOrder.js:21-24 | an empty cart has subtotal 0 |
| `OrderPricing.ItemsPriceAppend` | frontend/src/components/cart/ConfirmOrder.js:21-24 | appending a line adds exactly price × quantity to the subtotal |
| `OrderPricing.ItemsPriceConcat` | frontend/src/components/cart/ConfirmOrder.js:21-24 | the subtotal of two carts joined is the sum of their subtotals |
| `OrderPricing.SumNonNegative` | frontend/src/components/cart/ConfirmOrder.js:21-24 | non-negative prices and quantities give a non-negative sum |
| `OrderPricing.ItemsPriceNonNegative` | frontend/src/components/cart/ConfirmOrder.js:21-24 | non-negative prices and quantities give a non-negative subtotal |
| `OrderPricing.ShippingPrice` | frontend/src/components/cart/ConfirmOrder.js:25 | shipping is 0 exactly when the subtotal is above 200, and is always 0 or 1 |
| `OrderPricing.ShippingAtThreshold` | frontend/src/components/cart/ConfirmOrder.js:25 | a subtotal of exactly 200 still pays 1; any subtotal above 200 pays 0 |
| `OrderPricing.TaxPrice` | frontend/src/components/cart/ConfirmOrder.js:27 | the tax is one twentieth of the subtotal, and lies between 0 and the subtotal when the subtotal is non-negative |
| `OrderPricing.TaxBounds` | frontend/src/components/cart/ConfirmOrder.js:21-27 | with non-negative lines the tax lies between 0 and the subtotal |
| `OrderPricing.TotalPrice` | frontend/src/components/cart/ConfirmOrder.js:21-28 | the total is 1.05 × the sum of the lines plus the threshold shipping charge, with the tax left unrounded |
| `OrderPricing.TotalBounds` | frontend/src/components/cart/ConfirmOrder.js:21-28 | with non-negative lines, subtotal ≤ total ≤ 1.05 × subtotal + 1 |
| `OrderPricing.TotalNotMonotone` | frontend/src/components/cart/ConfirmOrder.js:21-28 | adding a line of 0.5 to a cart of 200 lowers the total, because shipping is waived |
| `OrderPricing.MakeOrder` | frontend/src/components/cart/ConfirmOrder.js:31-38 | the order carries the cart lines and shipping info unchanged, and its price fields agree with them |
| `OrderPricing.WellPricedIsMakeOrder` | frontend/src/components/cart/ConfirmOrder.js:21-38 | an order's price fields agree with its lines exactly when it is the order built from those lines |

## Left out

- OrderPricing.MakeOrder: the order record in the source holds `taxPrice` and `totalPrice` as the two-decimal strings made by `toFixed(2)` (ConfirmOrder.js:28-29, 34, 36). That record is what is sent to create the order, and the rounded total is the amount posted to the payment endpoint (line 44). The model's record holds the exact amounts instead. The source rounds the total from the unrounded tax, so in the record it sends the total need not equal the subtotal plus shipping plus the rounded tax: a single line of price 0.125 gives tax "0.01" and total "1.13". `WellPriced` states the relation between the exact amounts only.
- Floating point: JavaScript numbers are IEEE doubles, so `0.05` and the sums are inexact there. The model uses exact rationals.
- Other cart-item fields: cart lines in the source also carry other fields, such as name and image. The model keeps only price and quantity, and `orderItems` is that sequence, unchanged.
- The Razorpay payment flow (ConfirmOrder.js:40-114 and PaymentComponent.js): asynchronous HTTP calls, a third-party widget and its callbacks, and `order.paymentInfo`. Signature verification is done server-side in code that is not part of this model.
- React rendering and effects in Home.js, ProductSearch.js and UserList.js. These cover dispatching fetches, toasts and pagination widgets. Their only logic is the guard `productsCount > resPerPage` and the users-to-rows mapping, which are UI plumbing.
- store.js and backend/app.js: Redux, redux-persist and Express wiring with no logic of their own. A state that redux-persist rehydrates is assumed to be one the reducers produced.
- The action creators, `validateShipping`, `cartSlice`, `orderActions` and the backend controllers are not part of this model. The product records and the shipping info are type parameters that the model never inspects. A failure's payload is modelled as a message string.
- The pagination values `count` and `resPerPage` are integers, which may be missing from the payload. A payload of another JSON type is not modelled.
