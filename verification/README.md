# Clinic point of sale — a verified model of its core

This project models, in Dafny, the core of a small clinic and shop back office: a
point-of-sale cart in the browser, the sale endpoint that turns a cart into a sale,
its items and stock decrements in one transaction, the list and report endpoints
(sales, products, low-stock products, promotions, the revenue report and the
dashboard figures), the create endpoints for customers, users, categories, products,
promotions and services, the settings update, the login endpoint, the server's
authentication helpers and invoice numbers, the browser session, the toast list and
the two route guards.

The database is a class `Database.Database` with one sequence field per table. Every
handler that writes is a method that names the table it may change in its `modifies`
clause and states the new table outright. `Database.Consistent` is the store
invariant: ids are sequential, the unique columns are unique and the foreign keys
resolve. Each write keeps it. Read endpoints are functions over the table values.
The browser state (the cart, the session, the toasts) is held in classes whose
methods update their fields as the composables do.

The clock, `Math.random`, bcrypt, jsonwebtoken, `path.extname`, date parsing and the
reading of an instant as a local or UTC calendar date are parameters of the
operations they affect. The store's refusals (a missing foreign key, a duplicate
invoice number, a value outside an enum, a negative skip) appear as a 500
`StoreRejected` error. A negative `take` is not refused: the store counts it from the
end of the ordered rows.

Modules:
- `Wrappers`: `Option`, `Result`, the HTTP error, and the JavaScript `||` defaults.
- `Text`: digits, `toString`, `padStart`, `slice(-2)` and substrings.
- `Seqs`: filtering, stable sorting, paging and sums over sequences.
- `Calendar`: the ECMAScript day and time arithmetic.
- `Schema`: the tables' rows.
- `Database`: the store and its invariant.
- One module per core source file, or per group of like handlers. The six create
  endpoints share `CreateEndpoints`; the list-query helpers shared by the paged
  endpoints are in `Listing`.

## Model

| member | source | states |
|---|---|---|
| AuthUtils.VerifyToken | server/utils/auth.ts:32-38 | null exactly when verification throws, otherwise the verified claims |
| AuthUtils.UserFromHeader | server/utils/auth.ts:41-52 | no user when the header is missing or does not start with "Bearer "; otherwise the verdict on the header minus its first seven characters |
| AuthUtils.RequireAuth | server/utils/auth.ts:55-66 | 401 exactly when no user was found; otherwise the claims unchanged |
| AuthUtils.RequireAdmin | server/utils/auth.ts:69-80 | 401 without a user, 403 for a non-ADMIN, success exactly for an ADMIN, with the claims unchanged |
| AuthUtils.RandomSuffix | server/utils/auth.ts:88 | the random part is below 10000 |
| AuthUtils.GenerateInvoiceNumber | server/utils/auth.ts:83-93 | the invoice number starts with "INV" |
| AuthUtils.ParseInvoiceNumber | server/utils/auth.ts:92 | reads only 13-character "INV" numbers whose tail is all digits |
| AuthUtils.InvoiceNumberRoundTrip | server/utils/auth.ts:83-93 | for month 1-12, day 1-31 and any draw the number has 13 characters, digits after "INV", and gives back year mod 100, month, day and the random part from positions 3, 5, 7 and 9 |
| AuthUtils.InvoiceFields | server/utils/auth.ts:92 | "INV" followed by 2+2+2+4 digits reads back field by field |
| Text.PadStart | server/utils/auth.ts:86-90 | `padStart` fills on the left up to the width, keeps the text as its tail, and never shortens it |
| Text.PaddedNumber | server/utils/auth.ts:86-90 | a number below 10^w padded to w is exactly w digits worth that number |
| Text.Last2Digits | server/utils/auth.ts:85 | the last two characters of a year of at least two digits are two digits worth the year mod 100 |
| Text.NatToString | server/utils/auth.ts:85-90 | `toString` of a natural number is a non-empty run of digits with no leading zero |
| Text.NatToStringRoundTrip | server/utils/auth.ts:85-90 | reading back what `toString` wrote gives the number again |
| Text.NatToStringInjective | server/utils/auth.ts:85-90 | different numbers have different decimal texts |
| Cart.LineKeyInjective | app/composables/useCart.ts:48-75 | ids `product-<id>` and `service-<id>` never collide across different (type, item) pairs |
| Cart.LineIdsUnique | app/composables/useCart.ts:36-89 | in a well-formed cart no two lines share an id |
| Cart.Discount | app/composables/useCart.ts:17-25 | 0 without a promotion, subtotal*discount/100 for a percent promotion, the flat amount otherwise, unclamped |
| Cart.Total | app/composables/useCart.ts:28 | never negative, at least subtotal minus discount, and either 0 or exactly that difference |
| Cart.PercentDiscountWithinSubtotal | app/composables/useCart.ts:17-28 | a percent promotion of 0-100 on a non-negative subtotal takes off between 0 and the subtotal, so the total is the plain difference |
| Cart.SubtotalNonNegative | app/composables/useCart.ts:12-14 | non-negative prices give a non-negative subtotal |
| Cart.AppendNewLine | app/composables/useCart.ts:47-82 | appending a well-formed line for a new (type, item) keeps the cart invariant |
| Cart.UpdateLine | app/composables/useCart.ts:45-102 | replacing a line by a well-formed line of the same (type, item) keeps the invariant |
| Cart.SpliceLine | app/composables/useCart.ts:110-113 | removing a line keeps the invariant |
| Cart.IncrementEffect | app/composables/useCart.ts:45-71 | one more unit raises the item count by 1 and the subtotal by the line's price |
| Cart.AppendEffect | app/composables/useCart.ts:12-33 | an appended line adds its quantity to the item count and its total to the subtotal |
| Cart.Cart.constructor | app/composables/useCart.ts:7-8 | the cart starts empty with no promotion |
| Cart.Cart.BumpLine | app/composables/useCart.ts:45-46 | the line gains one unit and its total is recomputed, no other line changes, the item count grows by one and the cart invariant is kept |
| Cart.Cart.PushLine | app/composables/useCart.ts:48-57 | a well-formed line for an item not yet in the cart is appended at the end, the item count grows by its quantity and the cart invariant is kept |
| Cart.Cart.AddProduct | app/composables/useCart.ts:36-61 | an existing line at a non-zero stock cap fails and changes nothing; otherwise that line gains one unit, or a new line `product-<id>` with quantity 1 is appended; the invariant and the promotion are kept |
| Cart.Cart.AddService | app/composables/useCart.ts:64-85 | always succeeds: the existing line gains one unit or a new `service-<id>` line is appended; no duplicate lines |
| Cart.Cart.RemoveItem | app/composables/useCart.ts:109-114 | only the first line with that id goes, the rest stay in order; an unknown id changes nothing |
| Cart.Cart.UpdateQuantity | app/composables/useCart.ts:88-106 | an unknown id reports success and changes nothing; q <= 0 removes the line; q above a non-zero stock fails unchanged; otherwise the quantity and total are set |
| Cart.Cart.ClearCart | app/composables/useCart.ts:117-120 | no lines and no promotion; subtotal, item count and total are 0 |
| Cart.Cart.SetPromotion | app/composables/useCart.ts:123-125 | the promotion is replaced and the lines are untouched |
| Cart.GetCartData | app/composables/useCart.ts:128-140 | one payload line per cart line in order; the payload subtotal is the sum of the payload totals and equals the cart subtotal; the discount and total are the cart's own (so the total is non-negative); the promotion id is the promotion's own, present only for a promotion with a non-zero id |
| Cart.SnapshotTotals | app/composables/useCart.ts:129-136 | the payload's line totals add up to the cart subtotal |
| SaleCommit.StatusOf | server/api/sales/index.post.ts:28 | "UNPAID" when no status is given, otherwise the store's parse of the given text |
| SaleCommit.DiscountOf | server/api/sales/index.post.ts:26 | the given discount, or 0 |
| SaleCommit.PromotionOf | server/api/sales/index.post.ts:24 | a promotion id only when a non-zero one is given |
| SaleCommit.SaleRow | server/api/sales/index.post.ts:19-31 | the row exists exactly when subtotal, total and a valid status are present; subtotal and total are copied verbatim, and userId is the caller's |
| SaleCommit.LineItem | server/api/sales/index.post.ts:35-44 | a "product" line sets only productId, "service" only serviceId, any other type neither; quantity, price and total are copied |
| SaleCommit.SaleItemsFor | server/api/sales/index.post.ts:34-44 | one item per request line, in request order, linked to the sale |
| SaleCommit.Decremented | server/api/sales/index.post.ts:47-54 | each product's stock drops by its sold quantity; every other field is kept |
| SaleCommit.ItemsOfSale | server/api/sales/index.post.ts:61-73 | the items read with the sale are every stored item of that sale, each as often as stored, and no other; in a store ordered by id they come in the order they were written |
| SaleCommit.FindSale | server/api/sales/index.post.ts:61-73 | null exactly when no sale has the id; otherwise that sale with its items |
| SaleCommit.ProductQuantityStep | server/api/sales/index.post.ts:47-54 | one more line changes only its own product's sold quantity |
| SaleCommit.ProductQuantityUnsold | server/api/sales/index.post.ts:47-54 | a product no line names has sold quantity 0 |
| SaleCommit.ProductQuantityAppend | server/api/sales/index.post.ts:34-55 | the sold quantity of a concatenation is the sum of the parts |
| SaleCommit.ProductQuantitySwap | server/api/sales/index.post.ts:34-55 | the decrement does not depend on the order of the lines |
| SaleCommit.ItemsOfSaleAppend | server/api/sales/index.post.ts:61-73 | items appended after other sales' items are exactly the new sale's items |
| SaleCommit.ItemsOfSaleNone | server/api/sales/index.post.ts:61-73 | a sale with no stored items reads back with none |
| SaleCommit.FindAppended | server/api/sales/index.post.ts:61-73 | with sequential ids, the sale just appended is the one found by its id |
| SaleCommit.ReadBack | server/api/sales/index.post.ts:61-89 | after the commit, the re-read finds the new sale with exactly the items just written |
| SaleCommit.WriteLines | server/api/sales/index.post.ts:34-55 | the loop writes the items of `SaleItemsFor` and leaves the product table `Decremented`, or fails when a line names a missing row |
| SaleCommit.PlanSale | server/api/sales/index.post.ts:4-58 | 401 first, then 400 for a missing customer or empty items; for an authenticated, complete body the sale commits exactly when the sale row has its amounts and a valid status, the store accepts it and every line links to a product or service, and every other failure is 500; on success one sale row, one item per line and the decremented products |
| SaleCommit.PlanKeepsConsistent | server/api/sales/index.post.ts:17-58 | a committed sale keeps the store invariant |
| SaleCommit.PlanReadBack | server/api/sales/index.post.ts:17-89 | after a commit, reading the sale back finds it with exactly its new items |
| SaleCommit.Transaction | server/api/sales/index.post.ts:5-58 | the handler's steps compute exactly `PlanSale` |
| SaleCommit.CommitSale | server/api/sales/index.post.ts:4-92 | on failure the store is unchanged; on success the sale is appended, the items and products take the planned values, and the reply is the sale with its items |
| SaleCommit.StockDropsBySoldQuantity | server/api/sales/index.post.ts:47-54 | a product's new stock is its old stock minus its sold quantity; an unsold product is unchanged |
| SaleCommit.OversellGoesNegative | server/api/sales/index.post.ts:48-53 | there is no sufficiency check: selling more than the stock leaves it negative |
| SaleCommit.KindName | app/composables/useCart.ts:130 | the cart sends "product" or "service", matching the line's kind |
| SaleCommit.BodyFromCart | app/composables/useCart.ts:128-140 | a body shaped from the cart payload carries one line per payload line, the payload's subtotal, discount, total and promotion id, and the chosen customer, status and notes |
| SaleCommit.ItemTotalsMatch | server/api/sales/index.post.ts:34-44 | the stored item totals add up to the cart payload's totals |
| SaleCommit.CartSaleConsistent | server/api/sales/index.post.ts:19-44 | a sale posted from a well-formed cart has items whose totals are price times quantity and add up to the sale's subtotal |
| Listing.PageParam | server/api/sales/index.get.ts:8-9 | `parseInt(x) \|\| default`: a NaN or 0 falls back to the default, and the result is never 0 |
| Listing.Skip | server/api/sales/index.get.ts:13 | `(page - 1) * limit` is 0 on page 1, and not negative when page and limit are both on the same side of 1 and 0 |
| Listing.Window | server/api/sales/index.get.ts:55-56 | a non-negative take is the page from the front; a negative take -n is at most n rows ending `skip` rows before the end, what paging the reversed list and reversing back gives |
| Listing.WindowOfSorted | server/api/sales/index.get.ts:54-56 | a window of an ordered list is ordered and holds only its elements |
| Seqs.PageFromEnd | server/api/sales/index.get.ts:55-56 | the rows counted from the end are the reversed list's page, reversed back, and at most `take` of them |
| Listing.Paginate | server/api/sales/index.get.ts:74-79 | `totalPages` is `Math.ceil(total / limit)`, the least integer not below total / limit: for a positive limit the fewest pages that hold `total` rows, for a negative limit zero or less |
| SalesList.BuildSaleWhere | server/api/sales/index.get.ts:15-37 | the 24-hour bound exactly for EMPLOYEE; search and status only when non-empty |
| SalesList.CustomerOf | server/api/sales/index.get.ts:29-31 | the sale's customer, or none when no customer has the id |
| SalesList.Ordered | server/api/sales/index.get.ts:39-54 | the matching sales, newest first, each as often as in the table |
| SalesList.ListSales | server/api/sales/index.get.ts:39-80 | a 500 exactly for a negative skip or an unknown status; otherwise the store's window of the matching sales (from the end for a negative limit), at most |limit| of them, newest first, with the total counting all matches |
| SalesList.PageOfOrdered | server/api/sales/index.get.ts:39-57 | every sale in a window is stored, meets each condition, and the window runs newest to oldest |
| SalesList.SalesIndex | server/api/sales/index.get.ts:4-81 | 401 without a user; otherwise the listing with defaults 1 and 20 and the role's window |
| SalesList.EmployeeSeesOneDay | server/api/sales/index.get.ts:18-24 | an employee only sees sales of the last 24 hours |
| SalesList.UnfilteredCountsAll | server/api/sales/index.get.ts:58 | with no condition the total is the whole table |
| SalesList.BigFirstPageHoldsAll | server/api/sales/index.get.ts:39-57 | with a limit at least the table size, the first page holds every match |
| SalesList.NegativeLimitTakesFromEnd | server/api/sales/index.get.ts:13-79 | on page 1 a limit of -n succeeds with the last n matches of the newest-first order (all of them when fewer) and a page count of zero or less |
| RevenueReport.IntToStringReadsBack | server/api/reports/revenue.get.ts:37 | `toString` of an integer starts with a minus sign exactly when it is negative, and the rest is a non-empty run of digits that reads back as its magnitude |
| RevenueReport.Ceil | server/api/reports/revenue.get.ts:45 | `Math.ceil` is the least integer not below x |
| RevenueReport.WeekInRange | server/api/reports/revenue.get.ts:42-48 | the week number of any instant of a year is between 1 and 54 |
| RevenueReport.IntToStringInjective | server/api/reports/revenue.get.ts:37-40 | different years have different texts |
| RevenueReport.MonthlyKeySeparatesMonths | server/api/reports/revenue.get.ts:39-41 | two monthly keys are equal exactly when year and month are equal |
| RevenueReport.TwoDigitMonth | server/api/reports/revenue.get.ts:40 | the month part of the key is two digits worth the month from 1 |
| RevenueReport.MonthlyKeyParts | server/api/reports/revenue.get.ts:39-41 | a monthly key is the year's text, a dash, and two digits worth the month from 1 |
| RevenueReport.YearlyKeySeparatesYears | server/api/reports/revenue.get.ts:36-38 | two yearly keys are equal exactly when the years are |
| RevenueReport.AppendEntry | server/api/reports/revenue.get.ts:54-57 | a new sale adds to the count and sum of its own key only |
| RevenueReport.BumpKeepsGroups | server/api/reports/revenue.get.ts:54-57 | bumping the existing group of a key keeps the grouping invariant |
| RevenueReport.AppendKeepsGroups | server/api/reports/revenue.get.ts:54-57 | a new key's group is set at the end of the map and keeps the grouping invariant |
| RevenueReport.AddSaleKeepsGroups | server/api/reports/revenue.get.ts:54-57 | one loop step keeps the grouping invariant |
| RevenueReport.GroupedExactly | server/api/reports/revenue.get.ts:31-63 | one group per distinct key, in first-occurrence order, each with the count and sum of its key's sales |
| RevenueReport.GroupedTotals | server/api/reports/revenue.get.ts:54-67 | the group counts add up to the number of sales and the group revenues to their total |
| RevenueReport.EntriesOf | server/api/reports/revenue.get.ts:31-55 | one keyed entry per sale, carrying the sale's total |
| RevenueReport.EntriesSum | server/api/reports/revenue.get.ts:55-66 | the entries' amounts sum to the sales' total |
| RevenueReport.GroupByPeriod | server/api/reports/revenue.get.ts:29-58 | the loop over the sales builds exactly the grouped map |
| RevenueReport.ReportedSales | server/api/reports/revenue.get.ts:17-26 | exactly the PAID sales in the window, each as often as stored, oldest first |
| RevenueReport.Average | server/api/reports/revenue.get.ts:76 | revenue over count when there are sales, 0 otherwise |
| RevenueReport.RevenueIndex | server/api/reports/revenue.get.ts:4-80 | the admin guard's error, or the grouped report of the window's paid sales with period defaulting to "daily", whose counts and revenues add up to the summary totals, and the average |
| Calendar.DaysInMonth | server/api/dashboard/stats.get.ts:27 | 28 to 31 days, 29 in February of a leap year |
| Calendar.LastDayOfMonth | server/api/dashboard/stats.get.ts:27 | day 0 of the next month is the last day of this month |
| Calendar.BackToSunday | server/api/dashboard/stats.get.ts:16 | going back by the weekday lands on a Sunday at most six days earlier |
| Calendar.SetHours | server/api/dashboard/stats.get.ts:12 | `setHours` with in-range components keeps the day and sets the time of day to exactly those hours, minutes, seconds and milliseconds |
| Calendar.EndOfDay | server/api/dashboard/stats.get.ts:12-28 | the last millisecond of a day is one before the next midnight |
| Calendar.DayOfYearBounds | server/api/reports/revenue.get.ts:44-46 | a date lies within its year: between 0 and the year's length days after January 1 |
| DashboardStats.DateRanges | server/api/dashboard/stats.get.ts:7-28 | the bounds computed by stepping `Date` values (`setHours`, `setDate`, day 0 of the next month) are exactly `RangesOf` of the clock's day |
| DashboardStats.RangesOfBounds | server/api/dashboard/stats.get.ts:7-28 | today is one whole day; the week starts on the Sunday on or before today and ends at 23:59:59.999 on the Saturday after it; the month runs from its first day to the end of its last; the week and the month each hold today |
| DashboardStats.LowStockCount | server/api/dashboard/stats.get.ts:31-36 | the low-stock count never exceeds the number of active products |
| DashboardStats.LowStockCountExact | server/api/dashboard/stats.get.ts:31-36 | a product is counted exactly when it is active and stock <= minStock |
| DashboardStats.AggregateSum | server/api/dashboard/stats.get.ts:51-53 | the aggregate is null exactly over no rows, otherwise the sum |
| DashboardStats.OrZero | server/api/dashboard/stats.get.ts:96-101 | a null sum reads as 0 |
| DashboardStats.InRange | server/api/dashboard/stats.get.ts:61-66 | exactly the sales within the closed range, each as often as stored |
| DashboardStats.RevenueIsSum | server/api/dashboard/stats.get.ts:59-101 | each revenue figure is the plain sum of the totals in its range, 0 with no sale |
| DashboardStats.Dashboard | server/api/dashboard/stats.get.ts:38-103 | 401 without a user and success with one; the counts of sales and customers, the low-stock count, and the four revenue sums over the given ranges |
| DashboardStats.StatsIndex | server/api/dashboard/stats.get.ts:4-104 | 401 without a user; with one, success with the figures over the ranges of the clock's day (`RangesOf`: today, the Sunday-to-Saturday week, the calendar month), which `DateRanges` computes |
| ProductList.BuildProductWhere | server/api/products/index.get.ts:18-32 | search only when non-empty, category only when non-zero |
| ProductList.OrderedProducts | server/api/products/index.get.ts:35-41 | the matching products, newest first, each as often as stored |
| ProductList.Views | server/api/products/index.get.ts:52-58 | one response row per product, in order |
| ProductList.RowsComeFromMatches | server/api/products/index.get.ts:35-46 | every row of a page, filtered or not, is a matching product |
| ProductList.PageRows | server/api/products/index.get.ts:35-58 | the response rows are the store's window of the ordered matches (from the end for a negative limit), narrowed after paging to the low-stock rows when asked, one per row and in order, each an active product of the table with `isLowStock` iff stock <= minStock and `isOutOfStock` iff stock = 0 |
| ProductList.ProductsIndex | server/api/products/index.get.ts:4-66 | 401 without a user; a 500 exactly for a negative skip; otherwise the store's window (from the end for a negative limit, low-stock filtered after paging), the total without that filter, and the flags `isLowStock` iff stock <= minStock and `isOutOfStock` iff stock = 0 |
| ProductList.LowStockPageCanBeEmpty | server/api/products/index.get.ts:35-46 | filtering after paging can give an empty first page although a low-stock product exists |
| ProductList.NewestFirstOfTwo | server/api/products/index.get.ts:38 | the newest-first order of two products of different ages |
| LowStock.Candidates | server/api/products/low-stock.get.ts:8-16 | the active products with stock <= minStock, by ascending stock |
| LowStock.LowStockList | server/api/products/low-stock.get.ts:15-17 | the first min(20, n) candidates, each active and low, by ascending stock |
| LowStock.LowStockIndex | server/api/products/low-stock.get.ts:4-27 | 401 without a user, otherwise the list |
| LowStock.NoneSkipped | server/api/products/low-stock.get.ts:15-17 | a qualifying product is left out only when the list is full of products no better stocked |
| LowStock.FewCandidatesAllListed | server/api/products/low-stock.get.ts:17 | with at most 20 candidates, all are listed |
| PromotionList.BuildPromotionWhere | server/api/promotions/index.get.ts:8-17 | the filter is on exactly for the text "true" |
| PromotionList.ListPromotions | server/api/promotions/index.get.ts:19-22 | the matching promotions, each as often as stored, newest first |
| PromotionList.PromotionsIndex | server/api/promotions/index.get.ts:4-31 | 401 without a user; otherwise all promotions or the active ones at now |
| PromotionList.AllWithoutFilter | server/api/promotions/index.get.ts:10-22 | without the filter every promotion is returned |
| PromotionList.ActiveExactly | server/api/promotions/index.get.ts:12-17 | with the filter, a promotion is listed iff it is active and start <= now <= end |
| Notifications.NotificationCenter.constructor | app/composables/useNotification.ts:14 | the list starts empty |
| Notifications.NotificationCenter.Notify | app/composables/useNotification.ts:18-40 | appends exactly one toast with the clock reading as id and duration defaulting to 4000, returns the id, and schedules removal iff duration > 0 |
| Notifications.NotificationCenter.Remove | app/composables/useNotification.ts:43-48 | only the first toast with that id goes, the rest keep their order |
| Notifications.NotificationCenter.Clear | app/composables/useNotification.ts:51-53 | the list is empty |
| Notifications.NotificationCenter.Success | app/composables/useNotification.ts:56-57 | `notify` with type success |
| Notifications.NotificationCenter.Error | app/composables/useNotification.ts:58-59 | `notify` with type error |
| Notifications.NotificationCenter.Warning | app/composables/useNotification.ts:60-61 | `notify` with type warning |
| Notifications.NotificationCenter.Info | app/composables/useNotification.ts:62-63 | `notify` with type info |
| Seqs.RemoveFirstIsSplice | app/composables/useCart.ts:109-114 | removal by `findIndex` and `splice(index, 1)` drops exactly the first match and is the identity without one |
| Notifications.NotifyThenRemove | app/composables/useNotification.ts:25-48 | removing a toast by the id `notify` returned gives back the earlier list |
| ClientAuth.IsAdmin | app/composables/useAuth.ts:72 | admin implies logged in, and is `hasRole("ADMIN")` |
| ClientAuth.AuthHeaders | app/composables/useAuth.ts:75-80 | no header without a user or token, otherwise `Authorization: Bearer <token>` |
| ClientAuth.AuthHeaderRoundTrip | app/composables/useAuth.ts:78 | the server's header parsing recovers the token the client sent |
| ClientAuth.LoginResult | app/composables/useAuth.ts:26-55 | success exactly for a successful response with data, which becomes the user |
| ClientAuth.AuthSession.constructor | app/composables/useAuth.ts:7 | no user at first |
| ClientAuth.AuthSession.InitAuth | app/composables/useAuth.ts:12-23 | a parsable stored user is adopted; anything else leaves the session |
| ClientAuth.AuthSession.Login | app/composables/useAuth.ts:26-55 | the user is replaced only on success; otherwise it is unchanged |
| ClientAuth.AuthSession.Logout | app/composables/useAuth.ts:58-66 | logged out, not admin, no header, and navigation to "/login" |
| RouteGuards.AuthGuard | app/middleware/auth.ts:1-13 | "/login" always passes; elsewhere a redirect to "/login" exactly when logged out |
| RouteGuards.AdminGuard | app/middleware/admin.ts:1-11 | logged out goes to "/login", a non-admin to "/", an admin passes |
| RouteGuards.AdminGuardOnSession | app/middleware/admin.ts:4-10 | on a session, exactly admins pass, and a logged-out user goes to "/login" |
| Login.FindUser | server/api/auth/login.post.ts:15-17 | the found user has that username; none exactly when the name is not taken |
| Login.Claims | server/api/auth/login.post.ts:45-49 | the token is signed over exactly id, username and role |
| Login.LoginHandler | server/api/auth/login.post.ts:4-63 | 400 for missing credentials; success exactly for a known active user with a matching password; the reply has no password hash; every failure is 400 or 401 |
| Login.SignsInTheNamedUser | server/api/auth/login.post.ts:15-42 | with unique usernames, sign-in succeeds iff the named user is active and the password matches |
| Login.FailuresLookAlike | server/api/auth/login.post.ts:19-41 | an unknown user and a wrong password get the same 401; a disabled account is reported before the password is checked |
| Login.TokenAuthenticates | server/api/auth/login.post.ts:45-60 | the token handed out passes `requireAuth` as the same user |
| CreateEndpoints.NewCustomer | server/api/customers/index.post.ts:9-35 | 400 for a missing field or a taken phone; otherwise the given fields with address defaulting to null |
| CreateEndpoints.InsertCustomerKeepsConsistent | server/api/customers/index.post.ts:17-35 | inserting a customer with a new phone keeps the store invariant |
| CreateEndpoints.CreateCustomer | server/api/customers/index.post.ts:4-42 | 401 first; exactly one customer appended on success, none otherwise |
| CreateEndpoints.PhoneRegisteredOnce | server/api/customers/index.post.ts:17-26 | registering the same phone again is refused |
| CreateEndpoints.NewUser | server/api/users/index.post.ts:9-45 | 400 for a missing field or a taken username; the hash is stored; role defaults to EMPLOYEE |
| CreateEndpoints.InsertUserKeepsConsistent | server/api/users/index.post.ts:17-45 | inserting a user with a new username keeps the store invariant |
| CreateEndpoints.CreateUser | server/api/users/index.post.ts:4-52 | the admin guard first; on success exactly the planned user row is appended, its stored password is the hash of the given one, and the reply omits the password |
| CreateEndpoints.NewCategory | server/api/categories/index.post.ts:9-33 | 400 for a missing field or a taken name; otherwise the given name and unit |
| CreateEndpoints.InsertCategoryKeepsConsistent | server/api/categories/index.post.ts:17-33 | inserting a category with a new name keeps the store invariant |
| CreateEndpoints.CreateCategory | server/api/categories/index.post.ts:4-40 | 401 first; exactly one category appended on success, none otherwise |
| CreateEndpoints.NewProduct | server/api/products/index.post.ts:10-29 | 400 without name, non-zero price or category; costPrice defaults to price, stock to 0, minStock to 5, description to null |
| CreateEndpoints.InsertProductKeepsConsistent | server/api/products/index.post.ts:18-29 | inserting a product of an existing category keeps the store invariant |
| CreateEndpoints.CreateProduct | server/api/products/index.post.ts:4-40 | 401 first; exactly one product appended on success, none otherwise |
| CreateEndpoints.NewProductStartsLow | server/api/products/index.post.ts:24-25 | a product created without stock figures starts at stock 0 with minimum 5, so it is low on stock |
| CreateEndpoints.NewPromotion | server/api/promotions/index.post.ts:9-25 | 400 without name, non-zero discount or both dates; isPercent defaults to false, description to null; dates stored as parsed, unchecked |
| CreateEndpoints.CreatePromotion | server/api/promotions/index.post.ts:4-35 | 401 first; exactly one promotion appended on success, none otherwise |
| CreateEndpoints.ReversedWindowNeverRuns | server/api/promotions/index.post.ts:16-25 | a promotion with its end before its start is stored and is never running |
| CreateEndpoints.NewService | server/api/services/index.post.ts:9-22 | 400 without name or non-zero price; otherwise the given name and price with description defaulting to null |
| CreateEndpoints.CreateService | server/api/services/index.post.ts:4-32 | 401 first; exactly one service appended on success, none otherwise |
| SettingsUpdate.LogoPath | server/api/settings/index.put.ts:40-47 | the logo path lies under "/uploads/clinic-logo-" |
| SettingsUpdate.LastFieldWins | server/api/settings/index.put.ts:25-29 | the name collected is that of the last "name" field with data, absent only without one; likewise the subtitle |
| SettingsUpdate.LogoOnlyFromFiles | server/api/settings/index.put.ts:30-47 | a logo path is collected iff some "logo" field has data and a file name, and it lies under the upload prefix |
| SettingsUpdate.CollectFields | server/api/settings/index.put.ts:21-49 | the loop over the fields collects exactly what the fold does |
| SettingsUpdate.Merge | server/api/settings/index.put.ts:56-63 | each supplied field replaces the stored one; the others are kept |
| SettingsUpdate.Created | server/api/settings/index.put.ts:66-72 | id 1, name and subtitle defaulting when missing or empty, the logo as collected |
| SettingsUpdate.UpdateSettings | server/api/settings/index.put.ts:7-80 | the admin guard first, 400 without form data; the one row is merged, or created when there is none, and never a second row |
| Schema.ParseRole | server/api/users/index.post.ts:35 | the store accepts a text exactly when it is a role's name, and then gives that role |
| Schema.ParseStatus | server/api/sales/index.post.ts:28 | the store accepts a text exactly when it is a status's name, and then gives that status |

## Left out

- Database I/O and isolation: the store is a sequence per table. A transaction is one atomic step, and concurrent requests (two cashiers selling the same stock) are not expressible.
- Response conversions: `Number(...)` on money columns is the identity here, since amounts are already numbers. The joined relations of list and detail replies (`customer`, `user`, `items.product`, `items.service`, `category`) are not carried.
- Floating point: the cart's discount and total, sale discounts and totals, revenue sums and the average are exact reals. JavaScript's rounding of float arithmetic is not modelled.
- Promotion discounts are whole numbers (`Promotion.discount` is an `int`). A fractional percent such as 12.5 cannot be expressed.
- Store refusals: a missing foreign key, a duplicate invoice number, a status or role outside the enum, an unparsable date and a negative skip all give one 500 `StoreRejected` error. The store's own messages are not modelled.
- Autoincrement gaps: the model gives a new row the id `|table| + 1`, and `Database.Consistent` keeps ids sequential. The store also uses up an id on an insert that is later rolled back (a sale whose transaction fails) or refused (a foreign key), so its later ids skip numbers. Such gaps are not modelled.
- Sale lines: every line of a sale body carries its type, item, quantity, price and total. A line missing quantity, price or total, which the store refuses with a 500, cannot be expressed.
- Time zones and DST: instants are milliseconds on a timeline without daylight-saving changes. The local and UTC calendar readings of an instant are parameters of the revenue report.
- DashboardStats.DateRanges: takes the local year, month and day as given. `new Date(y, m, d)` mapping years 0-99 to 1900-1999 is not modelled.
- RevenueReport.WeekOfYear: computed with exact reals rather than float division. The weekly key is therefore not proved to match float rounding at exact week boundaries.
- RevenueReport.RevenueIndex: `startDate` and `endDate` arrive already read as instants. An unparsable date text (an Invalid Date) is not modelled.
- SalesList.ListSales: `contains` is an exact substring test. The database collation's case folding is not modelled.
- SalesList.BuildSaleWhere: the 24-hour window is `now - 86_400_000` ms. `setHours(getHours() - 24)` across a DST change is not modelled.
- Sorting ties: for sales, products and promotions with equal keys, the store's order is unspecified. The model uses a stable order, and the contracts state only the key order and the multiset.
- Hashing and tokens: bcrypt and jsonwebtoken are parameters (`hashPassword`, `passwordMatches`, `generateToken`, `jwtVerify`). Token expiry is part of `jwtVerify`.
- Notifications: the `setTimeout` removal is left out. Only its condition (duration > 0) is modelled, as the `scheduled` result.
- Browser storage and HTTP: `localStorage`, `$fetch` and `isLoading` in the session are left out. `InitAuth` takes what storage held, and `Login` takes the response or the thrown error.
- SettingsUpdate.UpdateSettings: creating the upload directory and writing the file are left out; an upload yields its path. `path.extname` is a parameter. All logo fields of one request share one clock reading.
- Login: the user's `createdAt` is returned as the instant behind its ISO text.
- The automatic-logout timer, the settings and contact read endpoints, the thin list endpoints and the HTTP client wrappers are outside this model.

The settings form: a multipart field's `data` is always a buffer, so a field sent empty still counts as given (`field.data` is truthy). The model follows the code here, so an empty "name" field sets the name to the empty text when settings exist.
