# Clothing shop dashboard — a verified model of its store and views

The application is a single-page dashboard for a small clothing shop. It keeps
a product catalogue, where each product has a stock quantity per size label,
and a ledger of sales. Both live in an in-memory store (`StoreProvider`). Four
screens read and change them:

- the dashboard: product count, total stock, revenue and the low-stock list;
- the reports: revenue, average ticket, sales grouped by product and by size,
  the five best sellers, and a seven-day rollup;
- the sale form: available stock, discount, royalty, an ordered validation
  chain, the sale record and the history of the latest sales;
- the product form: validation, parsing of the size fields, add or update,
  editing and confirmed deletion.

The project models each of these in Dafny and proves what each promises.

| file | models |
|---|---|
| `Types.dfy` | products, sales, per-size quantities, `Option`/`Result`, the ledger sums |
| `Sequences.dfy` | reversal and the subsequence relation used by several views |
| `StoreContext.dfy` | the store as a class `Store` with `products`, `sales` and an id counter. It has the five operations and the pure map and filter behind each of them |
| `Dashboard.dfy` | `totalProducts`, `totalStock`, `totalRevenue`, `lowStockProducts` |
| `Reports.dfy` | `totalRevenue`, `averageTicket`, the `productSales` and `sizeSales` reduces (loop methods proved against reference functions), `topProducts`, `last7Days`, `dailySales` |
| `SalesManagement.dfy` | the sale form's derived values, the `handleSubmit` chain and sale record, the two change handlers, the history table. The form's state is a class `SaleForm` |
| `ProductManagement.dfy` | `productData` construction, add or update, `handleEdit`, `resetForm`, `handleDelete`. The form's state is a class `ProductForm` |

Modelling choices:
- **Money** is `real`, so the discount, royalty and average are exact.
- **Quantities** are unbounded `int`.
- **Ids** are `nat`. The store issues them from a counter, where the application uses `Date.now()`.
- **Times** are an abstract day number (`Day`). The reports take "today" as a parameter.
- **Form text fields** are an `Option`: `None` stands for the empty string, `Some(v)` for the number the field parses to.
- **Size labels** are six: PP, P, M, G, GG and XG. The product form creates every product with these (src/components/ProductManagement.tsx:20), and the dashboard shows them. The `Product` type declares a different set, P, M, G, GG, XG and XGG (src/types/index.ts:8-15). The model follows the labels the code actually writes.

## Model

| member | source | states |
|---|---|---|
| StoreContext.Store.constructor | src/context/StoreContext.tsx:26-27 | the store starts with no products and no sales |
| StoreContext.Store.AddProduct | src/context/StoreContext.tsx:29-36 | exactly one product is appended at the end, with the given fields, a fresh id and the creation day. Every existing product is unchanged and keeps its place, and the ledger is untouched. Unique ids are preserved when every id in use was issued by the counter; non-negative stock is preserved when the new product's sizes are non-negative |
| StoreContext.Store.UpdateProduct | src/context/StoreContext.tsx:38-42 | the catalogue becomes the patched map; the ledger is untouched. Unique ids and non-negative stock are preserved when the patch carries no id and non-negative sizes |
| StoreContext.UpdateProducts | src/context/StoreContext.tsx:38-42 | the length is kept. At each index, a product with the id is patched and any other product is unchanged |
| StoreContext.ApplyPatch | src/context/StoreContext.tsx:40 | defines the spread `{ ...product, ...productData }`: each field the patch carries wins, each field it omits is kept. Its effect on the catalogue is the next row |
| StoreContext.UpdateProductsEffect | src/context/StoreContext.tsx:38-42 | on a matching product, each field the patch carries overrides and each field it omits is kept; other products are unchanged |
| StoreContext.UpdateProductsKeepsIdsUnique | src/context/StoreContext.tsx:38-42 | a patch without an id keeps the catalogue's ids unique |
| StoreContext.Store.DeleteProduct | src/context/StoreContext.tsx:44-46 | the catalogue becomes the filtered one; the ledger and the id counter are untouched; unique ids and non-negative stock are preserved |
| StoreContext.WithoutProduct | src/context/StoreContext.tsx:45 | defines the filter on `product.id !== id`; its properties are the next five rows and Dashboard.TotalProductsAfterDelete |
| StoreContext.WithoutProductMembers | src/context/StoreContext.tsx:44-46 | a product remains exactly when it was in the catalogue and its id differs from the deleted one |
| StoreContext.WithoutProductKeepsIdsUnique | src/context/StoreContext.tsx:45 | a catalogue whose ids are unique keeps them unique after the filter |
| StoreContext.WithoutProductKeepsOrder | src/context/StoreContext.tsx:45 | the remaining products keep their original order (a subsequence) |
| StoreContext.WithoutProductIdempotent | src/context/StoreContext.tsx:45 | deleting the same id twice is the same as deleting it once |
| StoreContext.WithoutProductLength | src/context/StoreContext.tsx:45 | the catalogue shrinks if and only if some product carries the id |
| StoreContext.Store.UpdateProductStock | src/context/StoreContext.tsx:60-73 | the catalogue becomes the restocked one; the ledger and the id counter are untouched. Unique ids and non-negative stock are preserved |
| StoreContext.RestockOne | src/context/StoreContext.tsx:62-69 | defines one product's update: slot `z` becomes `max(0, old + delta)`; stated for the catalogue in StoreContext.RestockEffect |
| StoreContext.Restock | src/context/StoreContext.tsx:60-73 | the length is kept. At each index, a product with the id gets the clamped update and any other product is unchanged |
| StoreContext.RestockEffect | src/context/StoreContext.tsx:60-73 | on a matching product, slot `z` becomes `max(0, old + delta)`. Every other size and every other field is kept, and other products are unchanged |
| StoreContext.RestockUnknownId | src/context/StoreContext.tsx:61-71 | an id that no product carries leaves the catalogue unchanged |
| StoreContext.RestockKeepsNonNegative | src/context/StoreContext.tsx:67 | because of the clamp, non-negative stock stays non-negative whatever the delta |
| StoreContext.RestockKeepsIds | src/context/StoreContext.tsx:61-72 | every product keeps its id, so unique ids stay unique |
| StoreContext.RestockRoundTrip | src/context/StoreContext.tsx:67 | a `-q` update followed by a `+q` update restores the catalogue whenever `0 <= q <= old` |
| StoreContext.Store.AppendSale | src/context/StoreContext.tsx:48-54 | the sale is appended to the ledger with a fresh id and the day; the catalogue is untouched and every id in use stays below the counter |
| StoreContext.Store.AddSale | src/context/StoreContext.tsx:48-58 | exactly one sale is appended, with a fresh id and the day. Then the sold size of the sold product loses the quantity, clamped at 0. Unique ids and non-negative stock are preserved |
| Types.Sizes.Set | src/context/StoreContext.tsx:65-68 | the written slot holds the new value and every other slot is kept |
| Types.Sizes.Total | src/components/ProductManagement.tsx:197 | the per-product total of non-negative quantities is non-negative |
| Types.Sizes.SetChangesTotal | src/components/Dashboard.tsx:10 | writing one slot moves the product's total by exactly the change in that slot |
| Types.TotalRevenue | src/components/Reports.tsx:11 | defines revenue as the sum of `totalPrice` over the ledger, the same reduce as src/components/Dashboard.tsx:13; its properties are the next two rows |
| Types.TotalsOfAppend | src/components/Reports.tsx:11 | the revenue and quantity sums distribute over concatenation of ledgers; one more sale adds exactly its price |
| Types.TotalRevenueNonNegative | src/components/Dashboard.tsx:13 | revenue is 0 for no sales and non-negative when every sale's price is |
| Dashboard.CountIdZero | src/context/StoreContext.tsx:44-46 | no product carries an id exactly when the number of products the delete filter removes for it is 0; used by Dashboard.TotalProductsAfterDelete |
| Dashboard.CountIdUnique | src/context/StoreContext.tsx:44-46 | in a catalogue with unique ids, the delete filter removes at most one product; used by Dashboard.TotalProductsAfterDelete |
| Dashboard.TotalProductsAfterDelete | src/context/StoreContext.tsx:44-46 | a delete lowers `totalProducts` (the catalogue's length) by the number of products carrying the id. That is exactly one when the id is present and ids are unique, and none when it is absent |
| Dashboard.TotalStock | src/components/Dashboard.tsx:9-11 | defines total stock as the sum over products of each product's per-size total; its properties are the next two rows |
| Dashboard.TotalStockNonNegative | src/components/Dashboard.tsx:9-11 | total stock is non-negative when every quantity is, and 0 for an empty catalogue |
| Dashboard.TotalStockAfterRestock | src/components/Dashboard.tsx:9-11 | an unclamped stock update moves total stock by `delta` once for every product carrying the id |
| Dashboard.LowStock | src/components/Dashboard.tsx:15-18 | defines the low-stock list as the order-preserving filter on a per-product total below 10; its properties are the next two rows |
| Dashboard.LowStockMembers | src/components/Dashboard.tsx:15-18 | a product is listed if and only if it is in the catalogue and its total is below 10 (zero included) |
| Dashboard.LowStockKeepsOrder | src/components/Dashboard.tsx:15 | the low-stock list is an order-preserving subsequence of the catalogue |
| Reports.AverageTicket | src/components/Reports.tsx:10-12 | the average is 0 for no sales; otherwise it times the number of sales equals the revenue |
| Reports.RevenueBounds | src/components/Reports.tsx:11 | revenue lies between `n * lo` and `n * hi` when every price lies in `[lo, hi]` |
| Reports.AverageTicketBounds | src/components/Reports.tsx:12 | the average ticket lies between the cheapest and the dearest sale |
| Reports.SoldProducts | src/components/Reports.tsx:15-27 | the group keys are exactly the products sold, each once |
| Reports.UnsoldHasNoTotals | src/components/Reports.tsx:15-27 | a product never sold has zero quantity and revenue |
| Reports.FirstNameOfAppend | src/components/Reports.tsx:17-22 | a group's name is the name on its product's first sale; later sales never change it |
| Reports.ProductSales | src/components/Reports.tsx:15-27 | defines the reference grouping: one entry per sold product in order of first sale, with its sums and first name; the loop method is proved equal to it |
| Reports.ProductSalesOfAppend | src/components/Reports.tsx:15-27 | one reduce step: the sale's entry (found, or created empty at the end) gains its quantity and revenue; every other entry is unchanged |
| Reports.TallyProductSales | src/components/Reports.tsx:15-27 | the loop's dictionary equals the reference grouping: one entry per product in order of first sale, holding its sums and its first name |
| Reports.ProductSalesEntries | src/components/Reports.tsx:15-27 | each entry belongs to a sold product, holds exactly that product's sums and first name, and no other entry has its id |
| Reports.ProductSalesStepSums | src/components/Reports.tsx:24-25 | recording one more sale adds its quantity and revenue to the sums over the groups |
| Reports.ProductSalesAddUp | src/components/Reports.tsx:15-27 | grouping by product neither loses nor invents anything: the groups sum to the ledger's quantity and revenue |
| Reports.InsertByQuantity | src/components/Reports.tsx:30 | insertion is a permutation of the list plus the new entry |
| Reports.InsertKeepsOrder | src/components/Reports.tsx:30 | inserting into a list sorted by non-increasing quantity keeps it sorted |
| Reports.SortByQuantity | src/components/Reports.tsx:30 | the sort is a permutation and its result is sorted by non-increasing quantity |
| Reports.TopProducts | src/components/Reports.tsx:29-31 | defines the top list as the first `min(5, n)` entries of the sorted groups; its properties are the next row |
| Reports.TopProductsAreTheBest | src/components/Reports.tsx:29-31 | the top list has `min(5, groups)` entries, is sorted by non-increasing quantity, and is a sub-multiset of the groups. Any group left out sold no more than the fifth entry |
| Reports.TallySizeSales | src/components/Reports.tsx:34-41 | a key exists exactly for each size that was sold, and it holds that size's quantity and revenue |
| Reports.UnsoldSizeHasNoTotals | src/components/Reports.tsx:34-41 | a size never sold has zero sums |
| Reports.SizeSalesAddUp | src/components/Reports.tsx:34-41 | the six per-size sums add up to the ledger's quantity and revenue |
| Sequences.Reverse | src/components/Reports.tsx:48 | the reversal has the same length and puts element `k` at `n-1-k` |
| Reports.Last7Days | src/components/Reports.tsx:44-48 | exactly seven consecutive days, oldest first, ending today |
| Reports.DailySales | src/components/Reports.tsx:50-59 | exactly one entry per day of the window, in the same order |
| Reports.SalesOn | src/components/Reports.tsx:51-53 | defines a day's sales as the ledger filtered on that day, in ledger order |
| Reports.NoSalesOnDay | src/components/Reports.tsx:51-53 | a day with no sale on it selects no sales |
| Reports.DailySalesZeroFill | src/components/Reports.tsx:50-59 | a day without sales still gets its entry, with zero quantity and revenue |
| Reports.DailySalesOfNoSales | src/components/Reports.tsx:50-59 | with no sales, the entries sum to zero |
| Reports.DailySalesOfAppend | src/components/Reports.tsx:50-58 | one more sale adds to its own day's entry and to no other |
| Reports.DailySalesCountEachSaleOnce | src/components/Reports.tsx:50-59 | the seven entries sum to the quantity and revenue of exactly the sales dated in the window: each is counted once, every other sale not at all |
| SalesManagement.FindProduct | src/components/SalesManagement.tsx:26 | a product is found if and only if one carries the id, and it is the first such product |
| SalesManagement.AvailableStock | src/components/SalesManagement.tsx:26-27 | defines available stock as the chosen size's quantity of the first product with the chosen id, or 0; stated in the next row |
| SalesManagement.AvailableStockSpec | src/components/SalesManagement.tsx:26-27 | with unique ids, available stock is the chosen size's quantity of the product carrying the chosen id, and 0 with no product, no size, or an unknown id |
| SalesManagement.FinalPrice | src/components/SalesManagement.tsx:30-33 | a zero discount leaves the price; a discount in `[0, 100]` keeps the price within `[0, price]`; the result is `price * (100 - d) / 100` |
| SalesManagement.RoyaltyAmount | src/components/SalesManagement.tsx:36-40 | defines the royalty amount as quantity times unit price times the percent over 100, each empty field read as 0; used by SalesManagement.AcceptedSaleRecord |
| SalesManagement.CheckSale | src/components/SalesManagement.tsx:42-93 | defines the validation chain and the sale record; its properties are the next four rows |
| SalesManagement.CheckSaleAccepts | src/components/SalesManagement.tsx:42-95 | a sale is accepted if and only if all four fields are filled, the quantity does not exceed the stock, the unit price is positive, the discount lies in `[0, 100]`, and the product exists |
| SalesManagement.CheckSaleOrder | src/components/SalesManagement.tsx:45-82 | the errors come in source order: missing fields first, then insufficient stock (reporting the available amount), then price, then discount |
| SalesManagement.AcceptedSaleRecord | src/components/SalesManagement.tsx:84-93 | the sale carries the form's product, size, quantity and unit price, and the product's current name, with `totalPrice = quantity * unitPrice`. The royalty percent is present exactly when positive. The royalty amount, when present, is `totalPrice * percent / 100`, and for a positive quantity it is present exactly when the percent is |
| SalesManagement.AcceptedSaleTakesExactStock | src/components/SalesManagement.tsx:57-64 | with unique ids, an accepted sale lowers the sold size by exactly the quantity, to a value of at least 0, so the store's clamp never fires |
| SalesManagement.ProductChanged | src/components/SalesManagement.tsx:128-137 | defines the form after a product change; stated in the next row |
| SalesManagement.ProductChangeResetsPricing | src/components/SalesManagement.tsx:128-137 | a product change selects the id, clears size and discount, sets the unit price to the product's undiscounted price (none for an unknown id), and keeps quantity and royalty |
| SalesManagement.DiscountChangedAsWritten | src/components/SalesManagement.tsx:139-145 | defines the handler as written: the unit price is discounted by the field's value before this change; the next two rows exhibit the lag |
| SalesManagement.DiscountChangeLagsAsWritten | src/components/SalesManagement.tsx:139-145 | as written, entering a 10% discount in one change event (a paste) on a product priced 100 leaves the unit price at 100, not 90 |
| SalesManagement.DiscountTypedDigitByDigitAsWritten | src/components/SalesManagement.tsx:139-145 | as written, typing the same 10% as "1" then "0" leaves the unit price at 99, not 90 |
| SalesManagement.DiscountChanged | src/components/SalesManagement.tsx:139-145 | defines the corrected handler: the unit price is discounted by the value just entered; stated in the next row |
| SalesManagement.DiscountChangeAppliesDiscount | src/components/SalesManagement.tsx:139-145 | corrected handler: the unit price becomes the product's price discounted by the value just typed, and the undiscounted price when the field is cleared |
| SalesManagement.DiscountHandlersAgreeOnlyWhenUnchanged | src/components/SalesManagement.tsx:139-145 | for a non-zero price, the written handler agrees with the corrected one if and only if the discount did not change |
| SalesManagement.History | src/components/SalesManagement.tsx:352 | the history holds `min(10, n)` sales, newest first |
| SalesManagement.SaleForm.constructor | src/components/SalesManagement.tsx:17-24 | the form starts empty, with royalty 0 |
| SalesManagement.SaleForm.HandleSubmit | src/components/SalesManagement.tsx:42-126 | the outcome is the validation chain's verdict. On success the store records the sale and takes the stock, and the form is reset. On failure nothing changes. Non-negative stock is preserved |
| SalesManagement.SaleForm.RecordSale | src/components/SalesManagement.tsx:95-125 | `addSale` followed by the form reset: one sale is appended, stock is taken, the id counter advances, the form is empty |
| SalesManagement.SaleForm.HandleProductChange | src/components/SalesManagement.tsx:128-137 | the form becomes the product-changed form |
| SalesManagement.SaleForm.HandleDiscountChange | src/components/SalesManagement.tsx:139-145 | the form becomes the discount-changed form (corrected handler) |
| ProductManagement.ParseSizes | src/components/ProductManagement.tsx:49-56 | each size is the typed quantity, or 0 when its field is empty |
| ProductManagement.SizeFieldsOf | src/components/ProductManagement.tsx:81-88 | editing fills every size field with that size's quantity |
| ProductManagement.ParseSizesOfFields | src/components/ProductManagement.tsx:81-88 | reading back the filled size fields gives the same quantities |
| ProductManagement.BuildProductData | src/components/ProductManagement.tsx:36-57 | defines the check and `productData` of `handleSubmit`; stated in the next row |
| ProductManagement.BuildProductDataSpec | src/components/ProductManagement.tsx:36-57 | the form is refused if and only if the name or the price is empty. Otherwise the record carries the name, description and price, no image, and each size's typed quantity or 0 |
| ProductManagement.EditForm | src/components/ProductManagement.tsx:77-89 | defines the form `handleEdit` fills from a product; its round trip is the next row |
| ProductManagement.PatchOf | src/components/ProductManagement.tsx:60 | defines `productData` read as a partial product: no id, no creation day, so an update keeps both; used by the next two rows |
| ProductManagement.EditSubmitRoundTrip | src/components/ProductManagement.tsx:76-91 | loading a named product into the form and submitting it unchanged rebuilds its fields, and the resulting patch leaves the product as it was |
| ProductManagement.UnchangedEditKeepsCatalogue | src/components/ProductManagement.tsx:59-60 | in a catalogue with unique ids, saving an unchanged edit leaves the catalogue exactly as it was |
| ProductManagement.ProductForm.constructor | src/components/ProductManagement.tsx:15-21 | the form starts empty, with nothing being edited |
| ProductManagement.ProductForm.ResetForm | src/components/ProductManagement.tsx:23-31 | every field is empty and nothing is being edited |
| ProductManagement.ProductForm.HandleSubmit | src/components/ProductManagement.tsx:33-74 | a refused form changes nothing. An accepted one either updates the product being edited, keeping the id counter, or appends a new product with a fresh id. Exactly one of the two happens, the ledger is untouched and the form is reset |
| ProductManagement.ProductForm.Save | src/components/ProductManagement.tsx:59-73 | dispatch on `isEditing`: update with the patch, or add the product; then reset |
| ProductManagement.ProductForm.HandleEdit | src/components/ProductManagement.tsx:76-91 | the form holds the product's fields and the product is the one being edited |
| ProductManagement.ProductForm.HandleDelete | src/components/ProductManagement.tsx:93-101 | the product is removed only when the user confirms; otherwise the catalogue is unchanged; the ledger is never touched |

## Left out

- The `useProducts` and `useSales` hooks (src/hooks). They are asynchronous calls into a hosted database, and the application's page does not use them; it wraps everything in the in-memory store.
- The image upload, the sidebar, the navigation, the header and the page layout. They are presentation only.
- Text parsing (`parseInt`, `parseFloat`) of form fields. A field is either empty or already the number it parses to, so unparsable text (`NaN`) is not modelled.
- `toFixed(2)` rounding. Amounts are exact reals.
- Floating-point money is not modelled.
- A patch carrying `image: undefined` explicitly: `ProductPatch` uses `Option`, so "absent" and "present but undefined" are the same `None` and the spread keeps the old image in both cases. The only patch the application builds, `productData` (src/components/ProductManagement.tsx:45-57, modelled by `PatchOf`), has no `image` key, so the distinction does not arise there.
- `Date.now()` ids. They come from a counter that always yields a fresh id. The application can give two records created in the same millisecond the same id; the model does not capture that collision. The `productSales` grouping lists products in order of first sale because `Object.values` keeps insertion order for `Date.now()` keys, which are above 2^32 and so are not array-index keys. With small counter ids as object keys, JavaScript would list them in numeric order; the model keeps the order the application has.
- `new Date()` timestamps, `toISOString` day strings and time zones. A day is an abstract integer and "today" is a parameter.
- Toasts, the success-message variants (SalesManagement.tsx:97-116), and `window.confirm`. Confirmation is a boolean parameter of `HandleDelete`.
- React's scheduling of state updates. Each handler's effect is modelled as one atomic change of the store or form state.
- Browser input attributes (`min`, `max`, `required`) are not code. The model follows the handlers only, so a quantity of 0 or less passes `handleSubmit`'s checks. When the product is missing, that path reaches the `selectedProduct!` dereference, which `CheckSale` reports as `ProductNotFound`.
- Sale update, sale delete with stock restore, per-size percentages and an out-of-stock list: the code has no such operations, so there is nothing to model.
- Reports.SortByQuantity: stability (ties keep their order) is not stated as a contract. The contract states only the permutation and the order.
- SalesManagement.SaleForm.HandleDiscountChange: uses the corrected handler, not the code as written; see Findings.

## Findings

| source | as written | input that shows it | evidently intended | confidence | as-written member | corrected member |
|---|---|---|---|---|---|---|
| src/components/SalesManagement.tsx:139-145 | `handleDiscountChange` writes `finalPrice` into the unit price. That value was computed during the render from the discount the field held BEFORE this change, so the unit price lags one edit behind | product priced 100 selected, discount field empty. Pasting "10" in one change leaves the unit price at 100. Typing "1" then "0" leaves it at 99 | the unit price is the product price discounted by the value just typed (90) | not executed | SalesManagement.DiscountChangeLagsAsWritten | SalesManagement.DiscountChangeAppliesDiscount |
