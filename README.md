# Shop ledger and point of sale, modelled in Dafny

The system is a small shop's sales app (stationery, books and a photocopy
service). Its data service keeps three collections: products, customers and
orders. A sale at the counter is an order of kind SALE. Restocking is an
order of kind IMPORT. A debt payment is recorded as an audit order of kind
DEBT_COLLECTION. Around the service sit five screens:

- the point-of-sale cart;
- the inventory screen, with its import cart;
- the dashboard, with its 30-day window and the monthly revenue and purchase reports;
- the customers screen, with its monthly chart, top spenders, debt dialog and form;
- the orders list, with its search, debt filter and pay-debt dialog.

This project models the data service and the logic of those screens.

Modules:

- `Types`: the entities (`Product`, `Customer`, `OrderItem`, `Order`,
  `DailyStat`) and shared helpers:
  - JavaScript's `||` fallbacks;
  - `findIndex`;
  - filtering;
  - ASCII case mapping;
  - `includes`.
- `Ledger`: the store's rules as functions of the collections:
  - read normalisation;
  - upsert and delete by id;
  - the out-of-stock cleanup;
  - the SALE stock effect;
  - the IMPORT stock and weighted-average cost effect;
  - the customer posting after each commit;
  - the two debt-settlement paths.
- `Store`: the class `LedgerStore`, whose three sequence fields are updated
  by methods. The methods mirror the service's local path. Each method's
  postcondition names the new state through `Ledger`. The invariant `Valid`
  (no negative balance, no negative order debt) is preserved.
- `DailyStats`: `calculateDailyStats` as a loop over thirty buckets indexed
  by a map, proved equal to a per-day fold.
- `Pos`: the cart transitions, money figures and checkout validation.
- `Inventory`: the product form, the import cart, the IMPORT order it
  builds, and the stock valuations.
- `Dashboard`: the monthly revenue report and the purchase report, each a
  method proved against a specification. It also holds the low-stock count; the
  30-day totals and the "today" lookup are in `DailyStats`.
- `Sorting`: the stable descending comparator sort used on fresh copies of
  lists.
- `Customers`: the monthly registered/guest chart (an array filled in a
  loop), the top five spenders, the debt dialog and the customer form.
- `Orders`: the newest-first list, the search and debt filters, and the
  pay-debt dialog.

Conventions:

- Money is an unbounded integer.
- A timestamp is an integer number of milliseconds.
- A calendar day is `timestamp / 86400000`, the UTC day that
  `toISOString` names.
- Ids, `Date.now()`, today's date, the month being reported and the local
  calendar are parameters.

A behaviour of the source worth knowing: `payOrderDebt` settles the order
whatever its code, but lowers a customer balance only for a registered code
(present, not empty, not GUEST). Posting a purchase, by contrast, credits
the GUEST record with the debt of a GUEST order. So paying off a GUEST
order leaves the GUEST balance where it was, and that balance no longer
equals the GUEST orders' outstanding debt
(`Ledger.UnregisteredSettlementDiverges`). The balance and the orders agree
after a settlement only for registered codes (`Ledger.SettlementReconciles`).

## Model

| member | source | states |
|---|---|---|
| Ledger.NormalizeProduct | services/store.ts:98-100 | a product read without a code gets the code "SP" followed by its id, nothing else changes, and a product that has a code is returned untouched |
| Ledger.NormalizeProducts | services/store.ts:98-100 | the products read back are the stored ones in the same order, each normalised: a stored code is kept, and a missing one becomes "SP" followed by the id |
| Ledger.NormalizeProductsIdempotent | services/store.ts:98-100 | normalising twice is normalising once, so the read-modify-write cycles of the service keep codes stable |
| Ledger.Upsert | services/store.ts:108-112 | the list grows by one exactly when no element has the key; elements with other keys keep their place; afterwards the first element with the key is the new value |
| Ledger.UpsertIdempotent | services/store.ts:108-112 | saving the same record twice equals saving it once |
| Ledger.UpsertKeepsKeysDistinct | services/store.ts:166-169 | when ids are unique before a save they are unique after it |
| Ledger.RemoveKey | services/store.ts:121-123 | the remaining elements are exactly those whose id differs from the deleted one |
| Ledger.OutOfStockIds | services/store.ts:130-132 | one id per non-service product with stock at most zero, in list order |
| Ledger.AfterCleanup | services/store.ts:139 | what remains after the cleanup is drawn from the list and holds no out-of-stock product |
| Ledger.AfterCleanupExact | services/store.ts:127-143 | with unique ids, a product survives the cleanup exactly when it is not out of stock |
| Ledger.RoundDiv | services/store.ts:343 | the result is the nearest integer to n/d, with halves rounded up as `Math.round` does |
| Ledger.WeightedCost | services/store.ts:337-346 | the new cost is the rounded weighted average of the kept stock at the old cost and the imported quantity at the import price; with nothing to average it is the import price |
| Ledger.WeightedCostBetween | services/store.ts:337-346 | for a positive import the new cost lies between the old cost and the import price, and equals the import price when there was no stock |
| Ledger.ImportExample | services/store.ts:343 | 10 units at 1000 plus 10 units at 2000 cost 1500 |
| Ledger.SellItemsEffect | services/store.ts:317-330 | after a SALE every product (the first of its id) has lost exactly the summed quantities of the lines naming it, with no floor, and nothing else changes |
| Ledger.ReceiveItemsStock | services/store.ts:331-357 | after an IMPORT every product keeps its id, and its stock rises by the summed quantities of the lines naming it |
| Ledger.ReceiveItemEffect | services/store.ts:333-354 | one IMPORT line re-costs and restocks only the matching product |
| Ledger.SameIdsSameIndex | services/store.ts:334 | a product lookup by id gives the same index on any list with the same ids, so earlier lines do not redirect later ones |
| Ledger.EffectiveCode | services/store.ts:361 | an order's posting code is never empty and is GUEST when the order has none |
| Ledger.PostPurchase | services/store.ts:360-387 | the first customer with the order's code is the same record with the order total added to its spending, the purchase date set, and the order's debt added when the order is DEBT or PARTIAL; no other record changes. A missing code appends one RETAIL record with the new id, named by the quick name, else the guest name for GUEST, else "Khách mới (" + code + ")", whose phone is the code when it is all digits |
| Ledger.PostPurchaseKeepsDebtsNonNegative | services/store.ts:377-381 | posting an order with non-negative debt keeps every balance non-negative |
| Ledger.OutstandingAppend | services/store.ts:379-381 | appending an order adds its debt to the outstanding debt of its own code only |
| Ledger.OutstandingUpdate | services/store.ts:223 | replacing one order changes its code's outstanding debt by the change in that order's debt |
| Ledger.OutstandingCoversOrder | services/store.ts:216-220 | a code's outstanding debt covers the debt of each of its orders |
| Ledger.OutstandingNonNegative | services/store.ts:379-381 | with no negative order debt, no code owes a negative amount |
| Ledger.CommitReconciles | services/store.ts:377-381 | a commit raises the customer's balance by exactly what the order adds to that code's outstanding order debt |
| Ledger.ReduceDebt | services/store.ts:180 | the balance falls by the amount and is floored at zero; a payment within the balance is exact, and nothing else in the record changes |
| Ledger.PaymentNote | services/store.ts:226 | an existing note is kept as a prefix; without one the note is the amount paid |
| Ledger.SettleOrder | services/store.ts:220-226 | the order pays at most its debt: debt falls and amount given rises by the same sum, and the status is PAID exactly when nothing is left (PARTIAL otherwise); only debt, amount given, status and note change |
| Ledger.DebtPaymentLog | services/store.ts:189-202 | the audit entry is a paid DEBT_COLLECTION order for the customer's code, with no total or profit, carrying the amount received |
| Ledger.ShortRef | services/store.ts:255 | the reference is the last six characters of the id, upper-cased |
| Ledger.SettlementLog | services/store.ts:250-263 | the audit entry is a paid DEBT_COLLECTION order for the settled order's code, carrying the amount paid |
| Ledger.SettleCustomers | services/store.ts:236-247 | for a registered code (present, not empty, not GUEST), the first customer with that code has its balance lowered by the amount paid, floored at zero, and nothing else changes; GUEST, code-less or unknown codes touch no customer |
| Ledger.SettlementError | services/store.ts:216-218 | refused with "not found" exactly when no order has the id, with "nothing owed" exactly when the first such order has no positive debt, and accepted only for a found order that owes something |
| Ledger.SettlementReconciles | services/store.ts:220-247 | for an order with a registered code whose customer's balance equals that code's outstanding order debt, settling the order (the settled order and its audit entry in the ledger, the balance through the customer settlement) keeps the two equal |
| Ledger.UnregisteredSettlementDiverges | services/store.ts:236 | a positive payment on a GUEST or code-less order lowers that code's outstanding order debt by the amount paid but changes no customer balance, so the two drift apart |
| Ledger.SettlementExample | services/store.ts:220-240 | paying 3000 on 5000 owed leaves 2000, marks the order PARTIAL and leaves the balance at 2000 |
| Store.LedgerStore.Products | services/store.ts:98-100 | the products as read back: the stored products in order, each normalised, so a stored code is kept and a missing one becomes "SP" followed by the id |
| Store.LedgerStore.SaveProduct | services/store.ts:103-114 | the product collection becomes the upsert of the product into the normalised products; customers and orders are unchanged |
| Store.LedgerStore.SaveCustomer | services/store.ts:160-171 | the customer collection becomes the upsert of the record; a record with a non-negative balance preserves the store invariant |
| Store.LedgerStore.DeleteProduct | services/store.ts:116-125 | the products become the normalised products without the id |
| Store.LedgerStore.DeleteCustomer | services/store.ts:274-283 | the customers lose the id and the store invariant is kept |
| Store.LedgerStore.DeleteOutOfStockProducts | services/store.ts:127-143 | the count returned is the number of out-of-stock non-service products; with none, nothing is written, and otherwise the products are the cleanup result |
| Store.LedgerStore.CreateOrder | services/store.ts:299-388 | a duplicate id changes nothing. Otherwise the order (SALE when untyped) is appended once, a SALE is taken off stock, an IMPORT is re-costed and restocked, the customer is posted, and the invariant holds for a non-negative debt |
| Store.LedgerStore.CollectDebt | services/store.ts:173-211 | an unknown customer is refused and nothing changes. Otherwise that customer's balance is reduced (floored at zero), one DEBT_COLLECTION entry is appended, and the invariant is kept |
| Store.LedgerStore.PayOrderDebt | services/store.ts:213-272 | the error is exactly the settlement error, and a refusal changes nothing. Otherwise the order is settled in place, the registered customer's balance falls by the amount paid, an audit entry is appended, and the invariant is kept |
| Store.LedgerStore.SettleAt | services/store.ts:220-271 | for a found order that owes something: the order is replaced by its settlement and the audit entry for the amount paid is appended after it; the first customer with the order's registered code has its balance lowered by the amount paid, floored at zero, and every other record, and every record for a GUEST, code-less or unknown code, is unchanged; products are untouched, and the invariant is kept |
| Store.SettleBalance | services/store.ts:236-247 | the search loop finds the first customer with the registered code and lowers only that balance by the amount paid, floored at zero; with no registered code or no such customer the list is unchanged; the result is the customer settlement and no balance becomes negative |
| Store.LedgerStore.Commit | services/store.ts:308-388 | a new, typed order is appended once; the stock pass for its type and the customer posting are applied; and the invariant holds when the order carries no negative debt |
| Store.ApplyStock | services/store.ts:317-358 | a SALE sells its lines, an IMPORT receives them, and any other type leaves the stored products as they were |
| Store.ApplySale | services/store.ts:317-330 | the loop over the lines yields the SALE stock effect, with each product lowered by its lines' quantities |
| Store.ApplyImport | services/store.ts:331-357 | the loop over the lines yields the IMPORT effect, with each product's stock raised by its lines' quantities |
| Store.PostToCustomer | services/store.ts:360-387 | the loop's result is the customer posting; at most one record is added, and some record with the order's code now carries the purchase date; no balance becomes negative when the order's debt is not negative |
| DailyStats.DayStat | services/store.ts:24-33 | the per-day fold itself; its contract gives only the bucket's date and a bound on its count, and what a bucket holds is stated by DayStatCountsItsOrders and AppendOrder |
| DailyStats.DailyStatsOf | services/store.ts:12-21 | thirty buckets with consecutive dates, the last of them today |
| DailyStats.DayStatCountsItsOrders | services/store.ts:24-33 | a bucket's order count is the number of non-collection orders placed on its day |
| DailyStats.AppendOrder | services/store.ts:24-33 | a new order adds its total, one order and its profit to its own day's bucket and to no other |
| DailyStats.CollectionEntryInvisible | services/store.ts:25 | a DEBT_COLLECTION entry changes no bucket |
| DailyStats.ImportCountsAsRevenue | services/store.ts:24-33 | an IMPORT placed today raises today's revenue by its total |
| DailyStats.OutsideWindowInvisible | services/store.ts:27-28 | an order outside the thirty days changes no bucket |
| DailyStats.CalculateDailyStats | services/store.ts:9-37 | the two loops, over buckets and then over orders through the date map, produce exactly the per-day fold |
| DailyStats.WindowAppend | services/store.ts:24-33 | an appended order adds its total, one order and its profit to the bucket of its day when that day is in the window and it is not a DEBT_COLLECTION entry, and otherwise leaves the window as it was |
| DailyStats.TotalsUpdate | components/Dashboard.tsx:230-231 | replacing one bucket changes the summed revenue and profit by that bucket's difference |
| DailyStats.TotalRevenue | components/Dashboard.tsx:230 | the 30-day revenue is non-negative when every bucket's is; TotalsOfWindow proves it equals the revenue of the window's non-collection orders |
| DailyStats.TotalProfit | components/Dashboard.tsx:231 | the 30-day profit is non-negative when every bucket's is; TotalsOfWindow proves it equals the profit of the window's non-collection orders |
| DailyStats.TotalsOfWindow | components/Dashboard.tsx:230-231 | the dashboard's 30-day revenue and profit, summed over the buckets, equal the order totals and profits of the non-collection orders placed in those thirty days |
| DailyStats.TodayStat | components/Dashboard.tsx:234-243 | today's figures are a bucket dated today when one exists, and zeros otherwise |
| DailyStats.TodayIsLastBucket | components/Dashboard.tsx:234-243 | on the window, today's figures are its last bucket, which is today's fold |
| Pos.FindProduct | components/POS.tsx:40 | a product is found exactly when one has the id, and the one found is from the list and has that id |
| Pos.Reprice | components/POS.tsx:35-47 | custom-priced lines and lines with no product keep their price; every other line gets the group price of its product; only prices change |
| Pos.RepriceIdempotent | components/POS.tsx:35-47 | repricing a repriced cart changes nothing |
| Pos.AddToCart | components/POS.tsx:77-98 | while processing, or for an out-of-stock non-service product, the cart is unchanged. For a product already in the cart: when the first line's quantity has reached the stock of a non-service product the cart is unchanged; otherwise its lines' quantities rise by one and, unless custom-priced, take the group price, and no other line changes. Otherwise one line of one unit at the group price is appended |
| Pos.AddKeepsLinesDistinct | components/POS.tsx:77-98 | adding never creates two lines for one product |
| Pos.AddRespectsStock | components/POS.tsx:86-88 | a goods line within stock stays within stock after an add |
| Pos.RemoveFromCart | components/POS.tsx:100-103 | the lines kept are exactly those of other products; while processing nothing changes |
| Pos.RemoveDistributes | components/POS.tsx:100-103 | removal is an order-keeping filter: it distributes over concatenation |
| Pos.UpdateQuantity | components/POS.tsx:105-116 | only the product's lines change, and only in quantity; the new quantity is the requested one clamped into 1..cap, where the cap is the stock (999999 for the photo service): a request above the cap gives exactly the cap (at least 1) |
| Pos.TransitionsKeepQuantitiesPositive | components/POS.tsx:77-116 | add, remove, quantity change and reprice all keep every quantity at least one |
| Pos.SaveEdit | components/POS.tsx:125-144 | only the edited line changes; it takes the entered quantity and price and is marked custom exactly when the price differs from the default price |
| Pos.EditSurvivesReprice | components/POS.tsx:35-47 | a price set in the editor survives the next repricing |
| Pos.TotalAmount | components/POS.tsx:146 | the cart total is non-negative when prices and quantities are; TotalAppend proves it additive over concatenated carts |
| Pos.EstimatedProfit | components/POS.tsx:148-156 | lines whose product is not loaded add nothing, so with no products it is zero; ProfitIsTotalLessCost proves it is the total less the cost of goods when every product is known |
| Pos.LineProfit | components/POS.tsx:148-156 | a last line with a known product adds its price less its cost, times its quantity, to the profit |
| Pos.ProfitIsTotalLessCost | components/POS.tsx:146-156 | when every line's product is known, the estimated profit is the cart total less the cost of goods |
| Pos.TotalAppend | components/POS.tsx:146 | the cart total is additive over concatenated carts |
| Pos.ChangeDue | components/POS.tsx:158 | paying now, given equals total plus change; on credit there is no change |
| Pos.DebtAmount | components/POS.tsx:159 | on credit the debt covers the shortfall and is never negative; paying now there is none |
| Pos.StatusFor | components/POS.tsx:173 | PAID exactly when paid now; PARTIAL exactly when on credit with something given; DEBT exactly when on credit with nothing given |
| Pos.ConfirmPayment | components/POS.tsx:161-188 | refused while processing, when paying now with too little, or on credit with no customer. Otherwise the order has the cart, its total and profit, the amount given, the note, the found customer's code (else the entered code or GUEST), the payment status of the mode and amount, and the change and debt of the mode, amount and total |
| Pos.ConfirmedOrderBalances | components/POS.tsx:158-180 | a confirmed order balances given, change and debt against the total; it is PAID exactly when paid now, PARTIAL exactly when on credit with something given and DEBT exactly when on credit with nothing given; paid now, the change is the amount given less the total; on credit, there is no change and the debt is the unpaid rest |
| Pos.OverpaidCreditSaleIsPartial | components/POS.tsx:173 | a credit sale with a positive amount given is PARTIAL even when that amount covers the total |
| Pos.CheckoutExample | components/POS.tsx:146-188 | a cart of 10000 + 3×5000 paid with 25000 confirms as PAID with no change |
| Inventory.ProductRecord | components/Inventory.tsx:70-88 | refused exactly when the name or the price is missing; otherwise the id is the edited product's (else the new id), the code the typed one (else the generated one), the wholesale price the typed one (else the retail price), and the stock the typed one (1000000000 for a service) |
| Inventory.SavedRecordConsistent | components/Inventory.tsx:76-86 | a saved record is priced for both groups without falling back (wholesale and retail price as stored); a saved service is never out of stock, and a good is out of stock exactly when its stock is at most zero |
| Inventory.AddToImportCart | components/Inventory.tsx:134-149 | a new product is appended with quantity one at its cost; an existing line gains one; nothing else changes |
| Inventory.RemoveFromImportCart | components/Inventory.tsx:151-153 | the lines kept are exactly those of other products |
| Inventory.UpdateImportQuantity | components/Inventory.tsx:155-162 | only the product's lines change, with the quantity moved by the step and floored at one |
| Inventory.UpdateImportPrice | components/Inventory.tsx:164-171 | only the product's lines change, and only in price |
| Inventory.ImportCartKeepsQuantitiesPositive | components/Inventory.tsx:134-171 | every import-cart transition keeps every quantity at least one |
| Inventory.PositiveLineCostBounded | services/store.ts:337-346 | an import line with positive quantity re-costs its product between the old cost and the line price |
| Inventory.ImportOrder | components/Inventory.tsx:173-197 | nothing for an empty cart; otherwise a PAID IMPORT order of the cart whose total is the cart total, fully given, with no debt, change or profit, no customer code, and the form's tax status and purchase date |
| Inventory.ImportCreditsGuest | services/store.ts:360-381 | committing an import (which has no code) adds its total to the GUEST customer's spending and changes nobody's debt |
| Inventory.CleanupCount | components/Inventory.tsx:225 | zero exactly when no non-service product is out of stock |
| Inventory.CleanupCountIsDeletedCount | components/Inventory.tsx:115-125 | the count the screen shows is the count the cleanup reports |
| Inventory.InventoryValue | components/Inventory.tsx:228-233 | the photo service is skipped, so a list of services only is worth zero; InventoryValueNonNegative proves it non-negative for non-negative costs and stock |
| Inventory.PotentialTotalProfit | components/Inventory.tsx:235-240 | the photo service is skipped, so a list of services only has zero potential profit; PotentialProfitIsRetailLessCost proves it is the retail value less the inventory value |
| Inventory.PotentialProfitIsRetailLessCost | components/Inventory.tsx:228-240 | the potential profit is the retail value of stock less its cost value |
| Inventory.InventoryValueNonNegative | components/Inventory.tsx:228-233 | with non-negative costs and stock the inventory value is non-negative |
| Dashboard.SumOfSalesIsSaleRevenue | components/Dashboard.tsx:60-66 | a day's revenue is the sum of the totals of its SALE orders |
| Dashboard.NonSaleInvisible | components/Dashboard.tsx:63 | imports and collection entries never add to the revenue report |
| Dashboard.ItemLabels | components/Dashboard.tsx:72-78 | one label per line: "Photo tài liệu" for a photo-service product, else the line's name |
| Dashboard.Dedup | components/Dashboard.tsx:70 | the insertion-ordered set holds each label once, and exactly the labels seen |
| Dashboard.DedupPrefix | components/Dashboard.tsx:70-80 | later labels never reorder the ones already collected |
| Dashboard.Description | components/Dashboard.tsx:81 | never empty; with no labels it is the revenue fallback text |
| Dashboard.DescriptionNamesFirstLabel | components/Dashboard.tsx:81 | a description starts with the first label when there is one, and is the fallback exactly when the joined labels are empty or are the fallback text |
| Dashboard.JoinStartsWithFirst | components/Dashboard.tsx:81 | a joined list starts with its first part |
| Dashboard.CollectLabels | components/Dashboard.tsx:70-80 | the loop over the day's orders and lines yields the de-duplicated labels |
| Dashboard.LabelsOfSalesAreDayLabels | components/Dashboard.tsx:60-80 | the labels of the filtered SALE orders are the day's labels |
| Dashboard.RevenueDays | components/Dashboard.tsx:56-68 | the report days are days of the month with positive SALE revenue, strictly ascending |
| Dashboard.RevenueDaysComplete | components/Dashboard.tsx:68 | every day of the month with positive SALE revenue is a report day |
| Dashboard.RevenueRows | components/Dashboard.tsx:52-92 | one row per report day: every row is a day of the month with positive SALE revenue and carries exactly that revenue; days are strictly ascending, so no day appears twice |
| Dashboard.RevenueRowsComplete | components/Dashboard.tsx:68 | every day with positive revenue has its row |
| Dashboard.RevenueRowsStep | components/Dashboard.tsx:68-89 | day n adds its own row after the earlier ones exactly when its revenue is positive, and nothing otherwise |
| Dashboard.RevenueTotalIsPositiveRevenue | components/Dashboard.tsx:88 | the report total is the sum of the positive daily revenues |
| Dashboard.RowsAmountAppend | components/Dashboard.tsx:88 | the running total grows by each pushed row |
| Dashboard.RevenueReport | components/Dashboard.tsx:52-92 | the day loop produces exactly the specified rows and their total |
| Dashboard.ReportDay | components/Dashboard.tsx:60-81 | a day's revenue, and its description when positive |
| Dashboard.PurchaseRowOf | components/Dashboard.tsx:112-122 | a row's total is quantity times price |
| Dashboard.OrderRows | components/Dashboard.tsx:111-124 | one row per line of the order, in line order |
| Dashboard.PurchaseRows | components/Dashboard.tsx:107-125 | every row's total is its quantity times its price |
| Dashboard.PurchaseRowCount | components/Dashboard.tsx:107-125 | there are as many rows as lines in the selected orders |
| Dashboard.RowsTotalAppend | components/Dashboard.tsx:123 | the purchase total is additive over concatenated rows |
| Dashboard.RowsTotalPermutation | components/Dashboard.tsx:128-132 | reordering rows does not change their total |
| Dashboard.SortRowsByDay | components/Dashboard.tsx:128-132 | the rows end sorted by day and are a permutation of the rows before |
| Dashboard.SinkRow | components/Dashboard.tsx:128-132 | one insertion step: with the first i rows sorted, the first i+1 end sorted, and the rows are a permutation of the rows before |
| Dashboard.AddOrderRows | components/Dashboard.tsx:111-124 | one order's lines append exactly that order's rows, and the running total stays the sum of all rows |
| Dashboard.CollectPurchaseRows | components/Dashboard.tsx:107-125 | the loop yields the rows of the selected orders and their total |
| Dashboard.PurchaseReport | components/Dashboard.tsx:93-136 | the rows are a permutation of the lines of the untaxed imports of the month, sorted by day, and the total is their total |
| Dashboard.LowStockCount | components/Dashboard.tsx:570 | the low-stock count is the number of products with less than ten in stock |
| Dashboard.LowStockCoversCleanup | components/Dashboard.tsx:570 | every product the cleanup would delete is counted as low stock |
| Sorting.InsertDesc | components/Customers.tsx:137 | inserting adds exactly the one element: the list grows by one and its multiset gains exactly x |
| Sorting.InsertDescSorted | components/Customers.tsx:137 | inserting into a descending list keeps it descending |
| Sorting.SortDesc | components/Orders.tsx:26 | the comparator sort gives a permutation of its input whose keys never increase |
| Customers.MonthBucket | components/Customers.tsx:146-158 | the per-month fold itself; its contract gives only the bar's month number, and what a bar holds is stated by AppendToMonth and MonthColumnsAreMonthSales |
| Customers.MonthColumnsAreMonthSales | components/Customers.tsx:146-158 | a bar's registered and guest columns together are the total of the year's non-collection orders placed in its month |
| Customers.MonthlyStatsOf | components/Customers.tsx:140-144 | always twelve bars, numbered 1 to 12 |
| Customers.AppendToMonth | components/Customers.tsx:146-158 | an order adds its total to the registered column of its month exactly when its code is present and not GUEST, else to the guest column; DEBT_COLLECTION entries and other years change nothing |
| Customers.MonthlyStats | components/Customers.tsx:139-160 | the loop filling the twelve-element array yields exactly the per-month fold |
| Customers.MonthlySplitCoversYear | components/Customers.tsx:146-158 | summed over the months, registered plus guest equals the year's non-collection order totals, imports included |
| Customers.BarsTotalUpdate | components/Customers.tsx:152-156 | changing one bar changes the chart total by the difference |
| Customers.TopCustomers | components/Customers.tsx:137 | at most five customers, in non-increasing order of spending, drawn from the list |
| Customers.TopCustomersAreTop | components/Customers.tsx:137 | nobody who spent more than the last one listed is left out, and a list of five or fewer is ranked whole |
| Customers.DefaultCollectAmount | components/Customers.tsx:68 | the dialog opens with the whole balance, which clears a non-negative balance |
| Customers.ClampCollectAmount | components/Customers.tsx:384 | an entered amount is kept at or below the balance and is either the entry or the balance |
| Customers.RemainingPreview | components/Customers.tsx:410 | the preview is never negative and is the balance the store will keep |
| Customers.CollectRequest | components/Customers.tsx:74-76 | the store is called exactly when a customer is selected and the amount is positive, with that customer's id, the amount and the note |
| Customers.ClampedCollectIsExact | components/Customers.tsx:74-76 | an amount the dialog lets through is positive and within the balance, so the store takes exactly that much off |
| Customers.NewCustomerForm | components/Customers.tsx:54-61 | a new form starts empty, RETAIL, with nothing spent or owed |
| Customers.EditCustomerForm | components/Customers.tsx:48-51 | an edit form starts from the record's fields |
| Customers.CustomerRecord | components/Customers.tsx:89-103 | refused exactly when the name or the code is empty; otherwise the record carries the form's fields, keeps the edited record's id (a new id otherwise), and keeps its last purchase date unless that date is 0 |
| Customers.EditRoundTrip | components/Customers.tsx:89-103 | saving an unchanged edit writes the record back as it was, except that a purchase date of 0 is dropped |
| Customers.NewRecordDefaults | components/Customers.tsx:54-61 | a new customer given only a code and a name is RETAIL, with no phone, nothing spent and nothing owed |
| Customers.SearchCustomers | components/Customers.tsx:131-135 | a customer is listed exactly when the name or code contains the term ignoring case, or the phone contains it |
| Customers.EmptySearchListsAll | components/Customers.tsx:131-135 | an empty search lists every customer in order |
| Types.IncludesIffOccurs | components/Orders.tsx:48-49 | the recursive `includes` holds exactly when the term occurs at some index |
| Orders.LoadedOrders | components/Orders.tsx:26 | the loaded list is newest first and is a permutation of the stored orders |
| Orders.LoadedOrdersAreTheLedger | components/Orders.tsx:26 | the list shows every stored order, and nothing else |
| Orders.FilteredOrders | components/Orders.tsx:47-52 | an order is listed exactly when it matches the search and the debt switch |
| Orders.DebtOnlyKeepsExactlyOwing | components/Orders.tsx:50 | with the switch on, exactly the matching DEBT and PARTIAL orders are listed |
| Orders.NoFilterShowsAll | components/Orders.tsx:47-52 | an empty search with the switch off lists every order in order |
| Orders.OpenPayDialog | components/Orders.tsx:71-74 | the dialog opens with the order's whole debt and a note naming the last six characters of its id |
| Orders.ClampPayAmount | components/Orders.tsx:359 | an entered amount is kept at or below the order's debt and is either the entry or the debt |
| Orders.SettleRequest | components/Orders.tsx:30-33 | the store is called exactly when an order is selected and the amount is positive, with that order's id, the amount and the note |
| Orders.DialogSettlementAccepted | components/Orders.tsx:166 | for a listed order that is offered the action (ids unique), a dialog settlement is accepted by the store and lowers that order's debt by exactly the amount |
| Orders.DefaultPaysInFull | components/Orders.tsx:72 | the opening amount settles the order completely and marks it PAID |

## Left out

- The remote (Google Sheets) branch of every service call, the sync
  functions, settings persistence and `localStorage` are not modelled: they
  are HTTP and storage I/O. Each collection is an in-memory sequence.
- The Gemini assistant, the Settings and Sidebar screens, the Apps Script,
  JSX rendering, printing, Excel export, Fuse product search, the customer
  lookup debounce and `imageUrl` are not part of this model.
- Ids, `Date.now()`, `Math.random()`, today's date and the month being
  reported are parameters, not generated.
- Money is unbounded integer arithmetic. JavaScript numbers are doubles,
  so fractional amounts and rounding of large values are not modelled. The
  customers dialog's "50%" button and the orders dialog's "TRẢ 50%" button
  (components/Orders.tsx:363, half the order's debt) can produce a
  fractional amount and are left out.
- `getCustomers`' `Number(debt) || 0` is not modelled. Balances are
  integers already, so it is the identity.
- Calendar days are UTC day numbers. The daily buckets, the revenue
  report and the purchase report's month filter compare UTC dates
  (`toISOString`). The purchase report's row day comes from the local
  `getDate`, and is taken here as the UTC day of the purchase date or
  timestamp. The monthly customer chart takes the local calendar as a
  parameter.
- DailyStats.DayStat: the date is a day number, not the ISO date string.
- Dashboard.RevenueRows: the row's date is a day number, not the
  `dd/mm/yyyy` text.
- The notes that embed `toLocaleString` and `toLocaleDateString` text are
  not modelled. That text is passed in as a parameter string.
- Case-insensitive search maps ASCII letters only. Unicode case folding
  (Vietnamese letters) is not modelled.
- Dashboard.SortRowsByDay and Dashboard.PurchaseReport: the stability of
  `Array.prototype.sort` on equal days is not stated. Only the sorted
  order and the permutation are proved.
- Sorting.SortDesc, Customers.TopCustomers and Orders.LoadedOrders: the
  model is the stable insertion order that JavaScript's stable sort
  produces, but the order of ties is not stated as a property.
- Pos.SaveEdit requires a valid line index, because the editor only opens
  on an existing line.
- The month labels of the customer chart (`T1`…`T12`) are kept as the
  month number.
- Exceptions thrown by the service (unknown customer or order, nothing
  owed) are returned as `LedgerError` values. The screens' `alert` on
  failure is not modelled.
