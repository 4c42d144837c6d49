# GrabNGo campus ordering — a Dafny model

GrabNGo is a campus food-ordering app. Students browse outlets and menus, fill a cart and place an order. Payment is either through the Razorpay gateway or cash on pickup. Vendor staff move orders through preparation, and admins and vendors read analytics dashboards. The system has two halves:

- Supabase edge functions:
  - `place-order`
  - `update-order-status`
  - `razorpay-webhook`
  - `admin-analytics`, `vendor-analytics`, `analytics`
  - `fetch-recommendations`
- A React client:
  - the auth, menu, cart, home, orders and vendor-console pages;
  - the stored-cart cleanup in `App.tsx`, which also removes an entry whose item array holds `null`;
  - the realtime order hooks;
  - the protected route.

## What the model covers

Each core file is one Dafny module, in the form its source has.

- **The `orders` and `order_items` tables** are one class, `Orders.OrderTable`.
  - `orders` is a map from id to `Order`; `items` is a sequence of `OrderItemRow`.
  - Its `Valid()` invariant says every order is stored under its own id, and every item row belongs to a stored order.
  - It also says every order has item rows whose subtotals sum to the order's subtotal, with tax 5% of the subtotal and total the sum of the two.
- **The state-changing edge functions** are methods that `modify` that table:
  - `PlaceOrder.PlaceOrder`,
  - `UpdateOrderStatus.UpdateStatus`,
  - `RazorpayWebhook.HandleWebhook`.

  Each is proved against a specification function of the old table and its inputs (`Outcome`, `Authorize`, `Webhook`), and each keeps `Valid()`. The properties the source promises are lemmas about those functions. Some examples:
  - nothing is written unless the order is created;
  - an owner may only cancel a `placed` or `preparing` order;
  - a forged signature is rejected;
  - a replayed capture finds no order.
- **The loops that fill maps** are methods with loop invariants, each proved equal to a specification function. They are:
  - the item and date tallies of the analytics functions;
  - the hour buckets;
  - the order-details maps of the orders page;
  - the pricing loop of `place-order`;
  - the de-duplication of recommendations.
- **The client's pure state updates** are functions with lemmas: cart quantity updates, menu cart counts and totals, the realtime list handlers, the vendor console's status buttons, the outlet search and the login/signup validation.
- **The stored-cart cleanup** changes the browser's local storage step by step. It is the method `StoredCart.LocalStorage.CleanCart` on a class holding the `cart` entry.

Inputs the functions cannot compute are parameters of the model:

- the authenticated user;
- the rows a query returns;
- whether a query fails;
- the gateway's reply;
- the environment's keys;
- the new order's id;
- the pickup-slot RPC and its fallback;
- the HMAC function;
- the JSON parser;
- the email validator.

Money is `real`. `Math.round` is `Money.RoundHalfUp`, which is floor of x + 0.5.

Where the system's written design and its code differ, the model follows the code:

- **The order and its item rows are not one atomic write.** The order is inserted first. When the item insert fails, the order is deleted again (`PlaceOrder.InsertWithRollback`).
- **A cash order's payment status is `cod`.**
- **A customer may cancel only a `placed` or `preparing` order.** A `pending_payment` order cannot be cancelled this way.
- **Staff may set any of the five whitelisted statuses.** No transition table is enforced.
- **A captured payment overwrites the status whatever it was.** It also replaces the stored gateway order id with the payment id. So a replay of the same event finds no order and is answered 404; it is not treated as a no-op (`RazorpayWebhook.CapturedReplayNotFound`).
- **The signature comparison is plain string equality.**

## Model

| member | source | states |
|---|---|---|
| Orders.ItemsOf | supabase/functions/place-order/index.ts:222-229 | the item rows of an order are exactly the rows carrying its id |
| Orders.ItemsOfAbsent | supabase/functions/place-order/index.ts:222-229 | an id not yet in the orders table owns no item rows, so a new order's rows are exactly those inserted with it |
| Orders.ItemsOfAppend | supabase/functions/place-order/index.ts:227-229 | appending rows of one order adds them to that order's rows and leaves every other order's rows unchanged |
| Orders.DeleteAfterInsert | supabase/functions/place-order/index.ts:231-234 | deleting the just-inserted order restores the orders table |
| Orders.InsertKeepsValid | supabase/functions/place-order/index.ts:194-229 | inserting a fresh order with non-empty rows that price it keeps the table invariant |
| Orders.PaymentColumnsKeepValid | supabase/functions/razorpay-webhook/index.ts:105-112 | changing only status, payment status and payment id of orders keeps the table invariant |
| PlaceOrder.CheckRequest | supabase/functions/place-order/index.ts:47-88 | an accepted request has its outlet and items, and carries exactly the menu rows fetched for its lines |
| PlaceOrder.CheckRequestCases | supabase/functions/place-order/index.ts:47-88 | 400 exactly when outlet or items are missing/empty; acceptance iff the fetch succeeds, returns one row per line, and every row is available at the outlet; an unfit-items rejection lists the names of exactly the unfit rows; every rejection is 400 or 500 |
| PlaceOrder.FindRow | supabase/functions/place-order/index.ts:93 | the lookup finds a row iff some fetched row has the line's menu item id, and what it finds is such a row |
| PlaceOrder.Priced | supabase/functions/place-order/index.ts:92-104 | one priced line per cart line, in order, each priced from the catalog row of its menu item |
| PlaceOrder.PriceLine | supabase/functions/place-order/index.ts:94-103 | a line's subtotal is the catalog price times the quantity |
| PlaceOrder.ComputePricing | supabase/functions/place-order/index.ts:91-104 | the loop prices every line iff every line's row was fetched, and its running subtotal is the sum of the line subtotals |
| PlaceOrder.ItemRowsSum | supabase/functions/place-order/index.ts:222-225 | the item rows written for an order sum to the order's subtotal |
| PlaceOrder.PaymentMethodOf | supabase/functions/place-order/index.ts:133 | the gateway is used when no (or an empty) method is given or `razorpay` is asked; cash only for `cash_on_pickup` |
| PlaceOrder.AmountPaise | supabase/functions/place-order/index.ts:165 | the gateway amount is the total in paise rounded to the nearest integer (within half a paisa) |
| PlaceOrder.NewOrder | supabase/functions/place-order/index.ts:191-209 | the inserted order has tax 5% of the subtotal, total subtotal plus tax, status/payment status `placed`/`cod` for cash and `pending_payment`/`pending` otherwise, and a payment id only when the gateway returned one |
| PlaceOrder.PreparedRowsPriceOrder | supabase/functions/place-order/index.ts:194-229 | a prepared order's rows are non-empty, carry its id and price it, so the insert can keep the table invariant |
| PlaceOrder.NewRowsPriceOrder | supabase/functions/place-order/index.ts:222-229 | the rows built from the priced lines carry the order id and sum to its subtotal |
| PlaceOrder.InsertWithRollback | supabase/functions/place-order/index.ts:194-240 | inserts the order then its rows; a failed order insert writes nothing, a failed row insert deletes the order again, success adds exactly the order and its rows; the table invariant is kept |
| PlaceOrder.PrepareRequest | supabase/functions/place-order/index.ts:35-192 | the early-exit checks before any write compute exactly the staged specification `Prepare` |
| PlaceOrder.PlaceOrder | supabase/functions/place-order/index.ts:23-261 | the response and the new tables are those of the specification `Outcome` of the old tables, and the table invariant is kept |
| PlaceOrder.OutcomeKeepsValid | supabase/functions/place-order/index.ts:194-240 | every outcome of a request leaves the tables valid |
| PlaceOrder.CreatedComesFromPrepared | supabase/functions/place-order/index.ts:242-256 | a success response comes from a prepared order under the fresh id and writes exactly that order and its rows |
| PlaceOrder.FailureWritesNothing | supabase/functions/place-order/index.ts:231-240 | any response other than success leaves both tables as they were |
| PlaceOrder.CreatedWritesOneOrder | supabase/functions/place-order/index.ts:194-229 | a success adds one order under a fresh id, keeps every other order and all earlier rows, and every added row carries the new id |
| PlaceOrder.OutcomeRejections | supabase/functions/place-order/index.ts:35-74 | 401 without a user, 400 for missing fields, 500 when the menu fetch fails, 400 when some menu row is not found |
| PlaceOrder.UnfitRowRejected | supabase/functions/place-order/index.ts:77-88 | a fetched row from another outlet or unavailable rejects the order with the names of all such rows, including its own, and writes nothing |
| PlaceOrder.GatewayFailureWritesNothing | supabase/functions/place-order/index.ts:141-182 | a gateway order without configured keys or with a failed gateway call is answered 500 and writes nothing |
| PlaceOrder.PreparedLines | supabase/functions/place-order/index.ts:91-104 | each written row copies its line's menu item, name, catalog price and quantity, from a row of the outlet that is available, with subtotal price times quantity |
| PlaceOrder.PreparedTotals | supabase/functions/place-order/index.ts:106-107 | the order belongs to the caller and the outlet, its subtotal is the sum of its rows, tax is 5% of it, total is their sum |
| PlaceOrder.PreparedPayment | supabase/functions/place-order/index.ts:131-256 | status and payment status follow the method; the gateway response carries the key id and the rounded total in paise; both the order and the response carry the pickup slot or its fallback |
| PlaceOrder.DuplicateLineRejected | supabase/functions/place-order/index.ts:55-74 | a cart naming the same menu item twice is rejected as "not found", since the `in` query returns each row once |
| PlaceOrder.RowCountBound | supabase/functions/place-order/index.ts:55-59 | the fetched rows are at most one per distinct requested id |
| PlaceOrder.CountCheckImpliesAllFound | supabase/functions/place-order/index.ts:69-74 | when as many rows come back as there are lines, the lines name distinct items and each line's item was fetched |
| UpdateOrderStatus.ParseStatus | supabase/functions/update-order-status/index.ts:62-69 | only the five whitelisted names parse, each to the status it names |
| UpdateOrderStatus.ParseStatusName | supabase/functions/update-order-status/index.ts:63 | every status except `pending_payment` round-trips through its name; `pending_payment` is refused |
| UpdateOrderStatus.AuthorizeCharacterization | supabase/functions/update-order-status/index.ts:40-135 | an update is permitted iff the caller is signed in, the request is complete and whitelisted, the order exists, the role lookup succeeds, and the caller is staff of the order's outlet or its owner cancelling a `placed`/`preparing` order |
| UpdateOrderStatus.AuthorizeRejections | supabase/functions/update-order-status/index.ts:40-84 | 401 without a user, 400 for a missing field or a status outside the whitelist, 404 for an unknown order |
| UpdateOrderStatus.StrangerForbidden | supabase/functions/update-order-status/index.ts:112-118 | a caller who is neither staff of the order's outlet nor its owner gets 403, whatever admin or other-outlet rows they hold |
| UpdateOrderStatus.OtherOutletStaffForbidden | supabase/functions/update-order-status/index.ts:88-118 | staff of outlet 2 asking to mark another customer's outlet-1 order ready get 403 |
| UpdateOrderStatus.StaffMaySetAnyStatus | supabase/functions/update-order-status/index.ts:106-112 | staff of the order's outlet may set any whitelisted status |
| UpdateOrderStatus.OwnerMayOnlyCancelEarly | supabase/functions/update-order-status/index.ts:120-134 | an owner who is not staff gets 403 for anything but `cancelled`, 400 when the order is past `preparing`, and may cancel otherwise |
| UpdateOrderStatus.UpdateStatus | supabase/functions/update-order-status/index.ts:140-160 | a denied request changes nothing; a permitted one changes only the order's status (unless the update fails) and returns the updated row; the table invariant is kept |
| UpdateOrderStatus.UpdateChangesOnlyStatus | supabase/functions/update-order-status/index.ts:140-145 | the update keeps every other order and every other column of the target order |
| RazorpayWebhook.DigitValue | supabase/functions/razorpay-webhook/index.ts:50-52 | reading a hex digit inverts writing it |
| RazorpayWebhook.ByteHexDigits | supabase/functions/razorpay-webhook/index.ts:51 | `toString(16).padStart(2, '0')` writes a byte as its high and low hex digits |
| RazorpayWebhook.Hex | supabase/functions/razorpay-webhook/index.ts:50-52 | the digest's hex text has two lowercase hex digits per byte |
| RazorpayWebhook.UnhexHex | supabase/functions/razorpay-webhook/index.ts:50-52 | the hex text decodes back to the digest |
| RazorpayWebhook.HexInjective | supabase/functions/razorpay-webhook/index.ts:50-54 | two digests have the same hex text iff they are equal |
| RazorpayWebhook.CapturedOrder | supabase/functions/razorpay-webhook/index.ts:105-112 | a capture sets status `placed`, payment status `completed` and the payment id, and nothing else |
| RazorpayWebhook.MarkFailed | supabase/functions/razorpay-webhook/index.ts:138-143 | a failure marks `failed` on exactly the orders with that gateway order id and leaves all others |
| RazorpayWebhook.CapturedKeepsValid | supabase/functions/razorpay-webhook/index.ts:105-112 | the capture update keeps the table invariant |
| RazorpayWebhook.MarkFailedKeepsValid | supabase/functions/razorpay-webhook/index.ts:138-143 | the failure update keeps the table invariant |
| RazorpayWebhook.CapturedUniqueMatch | supabase/functions/razorpay-webhook/index.ts:81-120 | with one matching order: 400 when the amount differs by more than 0.01, 500 when the update fails, otherwise the capture update on that order |
| RazorpayWebhook.SignatureGate | supabase/functions/razorpay-webhook/index.ts:15-60 | 500 without a secret, 400 without a signature; the signature check passes iff the header equals the hex HMAC of the body; no refusal writes |
| RazorpayWebhook.ForgedDigestRejected | supabase/functions/razorpay-webhook/index.ts:54-60 | a signature that is the hex of any other digest is refused with 400 and writes nothing |
| RazorpayWebhook.CapturedReplayNotFound | supabase/functions/razorpay-webhook/index.ts:81-112 | after a processed capture, the same event finds no order (404) and writes nothing |
| RazorpayWebhook.GatewayAmountMatches | supabase/functions/razorpay-webhook/index.ts:96 | the amount the order placement sends the gateway always passes the 0.01 tolerance against the order total |
| RazorpayWebhook.FailedTouchesOnlyPaymentStatus | supabase/functions/razorpay-webhook/index.ts:138-143 | a failure event changes only the payment status, and only to `failed` on matching orders |
| RazorpayWebhook.ReconcileKeepsValid | supabase/functions/razorpay-webhook/index.ts:71-160 | every verified event keeps the table invariant |
| RazorpayWebhook.ApplyCaptured | supabase/functions/razorpay-webhook/index.ts:72-127 | the captured-event handler writes exactly the specified reconciliation |
| RazorpayWebhook.ApplyEvent | supabase/functions/razorpay-webhook/index.ts:71-160 | every event is handled as specified, keeping the invariant and the item rows |
| RazorpayWebhook.HandleWebhook | supabase/functions/razorpay-webhook/index.ts:14-160 | the response and the new orders are those of the specification `Webhook` of the old table |
| Roles.StaffRows | supabase/functions/update-order-status/index.ts:89-95 | the staff rows are exactly the caller's `vendor_staff` rows for the outlet |
| Roles.SingleRole | supabase/functions/admin-analytics/index.ts:33-37 | `.single()` yields a row iff the lookup succeeds and the user has exactly one role row, and that row is the user's |
| Roles.TwoRowsNoRole | supabase/functions/admin-analytics/index.ts:33-39 | a user with two role rows has no role for `.single()` and is refused |
| AnalyticsData.DayKeyed | supabase/functions/admin-analytics/index.ts:147-149 | each completed order is keyed by its calendar date with its total |
| AnalyticsData.WeekdayKeyed | supabase/functions/vendor-analytics/index.ts:139-141 | each completed order is keyed by its short weekday name with its total |
| AnalyticsData.HoursOf | supabase/functions/admin-analytics/index.ts:190-191 | each order contributes its hour of creation |
| AnalyticsData.ItemRows | supabase/functions/admin-analytics/index.ts:99-103 | each joined item row contributes its name, price and quantity |
| AnalyticsData.RevenueOfKeyed | supabase/functions/admin-analytics/index.ts:147-168 | the totals of the keyed orders sum to the revenue of the orders |
| AnalyticsData.StatusCountsBounded | supabase/functions/admin-analytics/index.ts:71-83 | completed plus cancelled, and completed plus pending, never exceed the order count |
| AnalyticsData.LookbackReadings | supabase/functions/admin-analytics/index.ts:48-60 | the dashboards default to 7 days; daily, weekly and monthly agree across functions; an empty period reads as 7 days on the dashboards, an unknown one as a window starting now (so empty); both read as 6 months in the general function |
| AnalyticsData.Average | supabase/functions/vendor-analytics/index.ts:84 | a positive count gives the average with average times count equal to revenue; otherwise 0 |
| AdminAnalytics.Gate | supabase/functions/admin-analytics/index.ts:25-44 | 401 iff there is no user; admitted iff the user's single role is `admin`; otherwise 403 |
| AdminAnalytics.VendorCount | supabase/functions/admin-analytics/index.ts:77-80 | the vendor count is the number of `vendor_staff` rows when the count succeeds, and 0 when it fails |
| AdminAnalytics.AverageAsWritten | supabase/functions/admin-analytics/index.ts:92 | as written the average is undefined exactly when there are orders but none completed |
| AdminAnalytics.AverageAsWrittenUndefined | supabase/functions/admin-analytics/index.ts:92 | a window of orders none of which completed yields NaN |
| AdminAnalytics.SummaryOf | supabase/functions/admin-analytics/index.ts:71-94 | corrected: totals over the window, completed and cancelled counts bounded by it, revenue of the completed orders, average over the completed count, always defined, the vendor count |
| AdminAnalytics.SummaryAsWritten | supabase/functions/admin-analytics/index.ts:71-94 | the summary sent: its average is undefined exactly for a window of orders none completed; otherwise it equals the corrected summary, and its other fields always do |
| AdminAnalytics.CompletedOrders | supabase/functions/admin-analytics/index.ts:137-143 | the completed orders are exactly the window's orders with status `completed` |
| AdminAnalytics.Handle | supabase/functions/admin-analytics/index.ts:25-209 | every request is answered as the specification `Respond` says, with the summary's average as written, filling the maps in loops |
| AdminAnalytics.SummaryAnswer | supabase/functions/admin-analytics/index.ts:62-94 | an admin's summary request answers an undefined (null) average for a window of orders none completed, and the corrected summary otherwise |
| AdminAnalytics.AdminOnly | supabase/functions/admin-analytics/index.ts:25-44 | no data without a user (401) or without the single role `admin` (403) |
| AdminAnalytics.UnknownEndpoint | supabase/functions/admin-analytics/index.ts:206-209 | an unknown endpoint is 400 for an admin |
| AdminAnalytics.TopItemsResponse | supabase/functions/admin-analytics/index.ts:108-129 | at most ten items, counts descending, each the summed quantity of its completed rows priced as the last one |
| AdminAnalytics.ByDateResponse | supabase/functions/admin-analytics/index.ts:147-168 | groups ascend by date, each with its date's order count and summed totals, counts summing to the completed orders |
| AdminAnalytics.ByDateCovers | supabase/functions/admin-analytics/index.ts:147-168 | every completed order's date has a group |
| AdminAnalytics.ByHourResponse | supabase/functions/admin-analytics/index.ts:185-199 | 24 buckets counting each completed order once |
| VendorAnalytics.Gate | supabase/functions/vendor-analytics/index.ts:25-46 | 401 iff no user; admitted iff the single role is `vendor_staff` with a non-zero outlet, which is the scope; otherwise 403 |
| VendorAnalytics.SummaryOf | supabase/functions/vendor-analytics/index.ts:72-84 | totals of the outlet's window, completed and pending counts bounded by it, completed revenue and its average |
| VendorAnalytics.OutletOrders | supabase/functions/vendor-analytics/index.ts:64-68 | the summary reads exactly the orders of the vendor's outlet |
| VendorAnalytics.OutletCompleted | supabase/functions/vendor-analytics/index.ts:129-135 | the charts read exactly the completed orders of the vendor's outlet |
| VendorAnalytics.Handle | supabase/functions/vendor-analytics/index.ts:25-199 | every request is answered as the specification `Respond` says |
| VendorAnalytics.OwnOutletOnly | supabase/functions/vendor-analytics/index.ts:46-96 | the answer depends only on the vendor's own outlet's orders and items |
| VendorAnalytics.VendorOnly | supabase/functions/vendor-analytics/index.ts:39-44 | a user without a single `vendor_staff` row bound to an outlet gets 403 |
| VendorAnalytics.UnknownEndpoint | supabase/functions/vendor-analytics/index.ts:196-199 | an unknown endpoint is 400 |
| VendorAnalytics.TopItemsResponse | supabase/functions/vendor-analytics/index.ts:100-121 | at most five items, counts descending, each its name's summed quantity priced as the last row |
| VendorAnalytics.ByDateResponse | supabase/functions/vendor-analytics/index.ts:139-158 | one group per weekday present, with its order count and summed totals |
| VendorAnalytics.ByDateTotals | supabase/functions/vendor-analytics/index.ts:139-158 | the weekday groups' counts and revenues add up to the completed orders and their revenue |
| VendorAnalytics.ByHourResponse | supabase/functions/vendor-analytics/index.ts:175-189 | 24 buckets counting each completed order once |
| Analytics.GateAsWritten | supabase/functions/analytics/index.ts:27-47 | 401 iff the auth fails or no user; admitted iff the single role is `admin` or `vendor_staff` |
| Analytics.Target | supabase/functions/analytics/index.ts:52-56 | a vendor's scope is its role row's outlet, an admin's the requested outlet |
| Analytics.Scope | supabase/functions/analytics/index.ts:85-87 | a truthy outlet keeps exactly that outlet's orders; otherwise all orders |
| Analytics.UnboundVendorSeesAllOutlets | supabase/functions/analytics/index.ts:52-56 | as written a vendor row without an outlet is admitted and sees every outlet's orders |
| Analytics.UnboundVendorExample | supabase/functions/analytics/index.ts:52-56 | an order of outlet 2 reaches an unbound vendor asking for outlet 1 |
| Analytics.Gate | supabase/functions/analytics/index.ts:42-56 | corrected: admitted as written except a vendor without an outlet, so an admitted vendor always has a truthy scope |
| Analytics.Shown | supabase/functions/analytics/index.ts:164-169 | one shown item per statistics row with its order count, named iff the row joined its menu item |
| Analytics.TopItemsShownMeaning | supabase/functions/analytics/index.ts:99-123 | at most ten top items by descending count, none when the statistics query fails |
| Analytics.Handle | supabase/functions/analytics/index.ts:27-172 | every request is answered as the specification `Respond` says, with the caller check as written |
| Analytics.UnboundVendorAnswered | supabase/functions/analytics/index.ts:42-87 | as written, a vendor whose single role row has no outlet gets the report over every outlet's orders |
| Analytics.CorrectionRefusesOnlyUnbound | supabase/functions/analytics/index.ts:42-56 | the corrected caller check answers 403 to such a vendor and gives every other request the response as written |
| Analytics.ReportDateTotals | supabase/functions/analytics/index.ts:131-140 | the date groups' counts and revenues add up to the report's totals |
| Analytics.ReportHourTotal | supabase/functions/analytics/index.ts:142-146 | the hour entries add up to the order count |
| Analytics.ReportAverage | supabase/functions/analytics/index.ts:126-155 | revenue over all orders, completed at most total, average over all orders |
| Analytics.ReportHours | supabase/functions/analytics/index.ts:142-146 | an hour is listed iff some order falls in it, with its count |
| Analytics.StaffOnly | supabase/functions/analytics/index.ts:27-47 | no data without a user or without a single admin/vendor role |
| Analytics.VendorSeesOwnOutlet | supabase/functions/analytics/index.ts:52-87 | corrected: under the corrected caller check a vendor's report covers exactly its own outlet's orders |
| Analytics.AdminScope | supabase/functions/analytics/index.ts:52-87 | an admin's report covers the requested outlet, or all orders when none is requested |
| Analytics.StatsFailureTolerated | supabase/functions/analytics/index.ts:119-123 | a failed statistics query still answers, with no top items |
| Grouping.TallyItems | supabase/functions/admin-analytics/index.ts:108-125 | the item map has at most one entry per row |
| Grouping.CountItems | supabase/functions/admin-analytics/index.ts:108-125 | the `forEach` loop builds exactly the item tally |
| Grouping.AddItemAt | supabase/functions/admin-analytics/index.ts:111-124 | one row adds its quantity to its name's entry or starts it, re-pricing it; other names are untouched |
| Grouping.LastIndexNamed | supabase/functions/admin-analytics/index.ts:116 | finds the last row with a name, or none |
| Grouping.TallyItemsCountAt | supabase/functions/admin-analytics/index.ts:108-125 | a name's entry counts the summed quantity of its rows |
| Grouping.TallyItemsPriceAt | supabase/functions/admin-analytics/index.ts:116 | a name's entry carries the price of its last row |
| Grouping.TallyItemsAt | supabase/functions/admin-analytics/index.ts:108-125 | a name has an entry iff it has rows, with their summed quantity and the last price |
| Grouping.TallyItemsMeaning | supabase/functions/admin-analytics/index.ts:108-125 | the entries are exactly the row names, each tallied from its rows |
| Grouping.ValuesUnderOwnName | supabase/functions/admin-analytics/index.ts:127 | every value of the map is stored under its own name |
| Grouping.TopItemsFromTally | supabase/functions/admin-analytics/index.ts:127-129 | every top item is a tally entry |
| Grouping.TopItemsRanked | supabase/functions/admin-analytics/index.ts:127-129 | no item left out counts more than an item shown |
| Grouping.TopItemsMeaning | supabase/functions/admin-analytics/index.ts:127-129 | the top list is the first n of the tally by descending count, drawn from the tally, with nothing omitted outranking it |
| Grouping.TallyByKey | supabase/functions/admin-analytics/index.ts:147-164 | the key map has at most one group per order |
| Grouping.GroupByKey | supabase/functions/admin-analytics/index.ts:147-164 | the `forEach` loop builds exactly the key tally |
| Grouping.AddOrderAt | supabase/functions/admin-analytics/index.ts:150-163 | one order adds one to its key's count and its total to its revenue, or starts the group |
| Grouping.TallyByKeyAt | supabase/functions/admin-analytics/index.ts:147-164 | a key has a group iff it has orders, holding their number and summed totals |
| Grouping.TallyByKeyMeaning | supabase/functions/admin-analytics/index.ts:147-164 | the groups are exactly the keys present, each with its count and revenue |
| Grouping.TallyByKeyConserves | supabase/functions/admin-analytics/index.ts:147-164 | the groups' counts add up to the orders and their revenues to the totals |
| Grouping.AddOrderSums | supabase/functions/admin-analytics/index.ts:150-163 | each order adds one to the counts and its total to the revenues |
| Grouping.GroupsByDayTally | supabase/functions/admin-analytics/index.ts:166-168 | every sorted group is its date's tally |
| Grouping.GroupsByDayMeaning | supabase/functions/admin-analytics/index.ts:166-168 | the groups ascend by date, cover every order's date and count all orders |
| Grouping.GroupsByDayCovers | supabase/functions/admin-analytics/index.ts:147-168 | every order's date has a group |
| Grouping.PermutationSums | supabase/functions/admin-analytics/index.ts:166-168 | sorting the groups keeps their count total |
| Hours.Histogram | supabase/functions/admin-analytics/index.ts:185-199 | 24 buckets, bucket h the number of orders in hour h |
| Hours.HistogramSnoc | supabase/functions/admin-analytics/index.ts:190-197 | each order adds one to its hour's bucket |
| Hours.HistogramTotal | supabase/functions/admin-analytics/index.ts:185-199 | the buckets add up to the orders |
| Hours.HourBuckets | supabase/functions/admin-analytics/index.ts:185-199 | the loop builds 24 buckets, bucket h counting the orders of hour h |
| Hours.HourMap | supabase/functions/analytics/index.ts:142-146 | the hour record counts each hour's orders and holds only hours that occur |
| Hours.CountByHour | supabase/functions/analytics/index.ts:142-146 | the `forEach` loop builds exactly that record |
| Hours.HourEntriesTotal | supabase/functions/analytics/index.ts:160-163 | the hour entries are exactly the occupied hours with their counts, adding up to the orders |
| Recommendations.Query | supabase/functions/fetch-recommendations/index.ts:38-65 | a statistics query returns at most three rows, each from the table and matching its filter |
| Recommendations.Tagged | supabase/functions/fetch-recommendations/index.ts:81-85 | each row becomes its menu item with its order count and recommendation type |
| Recommendations.AvailableTagged | supabase/functions/fetch-recommendations/index.ts:79-85 | only rows with an available menu item are kept, tagged with the type and their count |
| Recommendations.DropSeen | supabase/functions/fetch-recommendations/index.ts:141-155 | the `seen`-set loop keeps the first recommendation of each item id, in order |
| Recommendations.Handle | supabase/functions/fetch-recommendations/index.ts:25-166 | every request is answered as the specification `Recommend` says |
| Recommendations.SignedInOnly | supabase/functions/fetch-recommendations/index.ts:25-32 | no user means 401 |
| Recommendations.FavoritesWhenHistory | supabase/functions/fetch-recommendations/index.ts:77-97 | a user with history gets favourites, even an empty list when none is available |
| Recommendations.RecommendMeaning | supabase/functions/fetch-recommendations/index.ts:78-163 | at most three available items of the answer's type; popular items are distinct, in query order, and cover every available item id of the query |
| Auth.DigitRunIff | src/pages/Auth.tsx:15 | the digit-run pattern of length n matches exactly n decimal digits |
| Auth.PhoneIffTenDigits | src/pages/Auth.tsx:15 | a phone is valid iff it is exactly ten decimal digits |
| Auth.ValidateLoginForm | src/pages/Auth.tsx:102-123 | an error per invalid field with its message, and the form valid iff there are none |
| Auth.ValidateSignupForm | src/pages/Auth.tsx:125-171 | name, phone, email, password and confirmation each get their error iff invalid, lengths counted in UTF-16 code units; valid iff no errors |
| Auth.Utf16Length | src/pages/Auth.tsx:13-14 | a string's JavaScript length lies between its character count and twice it, and equals the character count iff no character is above the Basic Multilingual Plane |
| Auth.AstralNameValid | src/pages/Auth.tsx:14 | a name of one emoji-like character passes `min(2)` |
| Auth.RedirectPath | src/pages/Auth.tsx:87-100 | `/admin` iff admin, `/vendor` iff vendor staff, `/` otherwise |
| Auth.SessionRedirect | src/pages/Auth.tsx:42-60 | no redirect without a session; `/admin` or `/vendor` iff the single role is that |
| Auth.SignupRoleRow | src/pages/Auth.tsx:220-227 | the role row has the new user and role, with outlet 1 exactly for vendor staff |
| Auth.SignupRoleIsRole | src/pages/Auth.tsx:220-227 | a new user's role row is its single role and redirects to its home |
| Auth.SignupVendorAdmitted | src/pages/Auth.tsx:226 | a vendor signing up is admitted to vendor analytics for outlet 1 |
| ProtectedRoute.Navigation | src/components/ProtectedRoute.tsx:18-29 | nothing while loading; to `/auth` iff signed out; to `/` iff a present role is outside the allowed roles |
| ProtectedRoute.Render | src/components/ProtectedRoute.tsx:31-43 | a spinner iff loading; the page iff signed in and the role is absent, unrestricted or allowed |
| ProtectedRoute.RenderMatchesNavigation | src/components/ProtectedRoute.tsx:18-43 | the route renders nothing exactly when it navigates away |
| ProtectedRoute.Admission | src/components/ProtectedRoute.tsx:39-43 | no role or no restriction admits a signed-in user; an empty allow-list refuses any role; signed-out is blank |
| Cart.Bumped | src/pages/Cart.tsx:49-53 | the matching item's quantity changes by `change`, floored at 0; others stay |
| Cart.RemoveItem | src/pages/Cart.tsx:58-60 | keeps exactly the items with another id |
| Cart.UpdateQuantityEffects | src/pages/Cart.tsx:46-56 | every kept quantity is positive; other items with positive quantity stay; the item is kept, adjusted, iff its new quantity is positive |
| Cart.IncrementThenDecrement | src/pages/Cart.tsx:46-56 | plus one then minus one restores a cart of positive quantities |
| Cart.RemoveItemEffects | src/pages/Cart.tsx:58-60 | removal keeps order, leaves no item of that id, and is idempotent |
| Cart.SubtotalConcat | src/pages/Cart.tsx:62-65 | the subtotal of two carts joined is the sum of theirs |
| Cart.SubtotalSplit | src/pages/Cart.tsx:62-65 | the subtotal splits over any partition of the items |
| Cart.RemoveItemSubtotal | src/pages/Cart.tsx:58-65 | removing an item lowers the subtotal by exactly its lines |
| Cart.Tax | src/pages/Cart.tsx:67 | the tax is 5% of the subtotal rounded to a whole rupee |
| Cart.Total | src/pages/Cart.tsx:66-68 | the total is subtotal, 20 delivery fee and the rounded tax, within half a rupee of 1.05 times subtotal plus 20 |
| Cart.TaxOfWholeRupees | src/pages/Cart.tsx:66-68 | on whole-rupee subtotals the tax and total are the exact integer formulas |
| Menu.AddToCart | src/pages/Menu.tsx:74-76 | one more of the item, starting from 0; every other entry unchanged |
| Menu.Decremented | src/pages/Menu.tsx:79-85 | a count above one goes down by one, otherwise the entry is deleted; other entries unchanged |
| Menu.RemoveFromCart | src/pages/Menu.tsx:79-85 | the copy-then-mutate handler computes exactly that |
| Menu.CountsStayPositive | src/pages/Menu.tsx:74-85 | adding and removing keep every stored count at least one |
| Menu.AddThenRemove | src/pages/Menu.tsx:74-85 | adding then removing an item restores the cart |
| Menu.PriceOf | src/pages/Menu.tsx:90-91 | the price of the first menu item with the id, 0 when none |
| Menu.AddToCartCount | src/pages/Menu.tsx:88 | adding raises the cart count by one |
| Menu.AddToCartTotal | src/pages/Menu.tsx:89-92 | adding raises the cart total by the item's price |
| Menu.RemoveFromCartCount | src/pages/Menu.tsx:88 | removing an item in the cart lowers the count by one |
| Menu.RemoveFromCartTotal | src/pages/Menu.tsx:89-92 | removing an item in the cart lowers the total by its price |
| Menu.Labels | src/pages/Menu.tsx:94 | each item's heading label is its category or `Other` |
| Menu.Section | src/pages/Menu.tsx:148-149 | a heading lists exactly the items whose category equals it |
| Menu.CategoriesDistinct | src/pages/Menu.tsx:94 | the headings are distinct, are exactly the labels, and keep first-occurrence order |
| Menu.ListedIffCategorised | src/pages/Menu.tsx:94-149 | an item appears under some heading iff it has a non-empty category |
| Home.Outlets | src/pages/Home.tsx:8-69 | the page lists six outlets |
| Home.Lower | src/pages/Home.tsx:77-78 | lowercasing maps each character |
| Home.Search | src/pages/Home.tsx:75-79 | keeps, in order, exactly the outlets whose lowercased name or cuisine contains the lowercased query |
| Home.EmptyQueryListsAll | src/pages/Home.tsx:75-79 | an empty query lists every outlet |
| Home.LowerAbsorbs | src/pages/Home.tsx:77-78 | lowercasing is idempotent and undoes uppercasing |
| Home.CaseInsensitive | src/pages/Home.tsx:75-79 | queries that lowercase alike find the same outlets |
| Home.LongerQueryNarrows | src/pages/Home.tsx:75-79 | extending the query can only narrow the result |
| StoredCart.ValidItems | src/App.tsx:33-35 | keeps exactly the items with id, name, numeric price and positive quantity |
| StoredCart.LocalStorage.CleanCart | src/App.tsx:22-53 | the cleanup leaves the entry as the specification `CleanedUp` of the old entry |
| StoredCart.MalformedRemoved | src/App.tsx:28-31 | unparseable or ill-shaped entries are removed; an absent or empty entry is left |
| StoredCart.UntouchedIffAllValid | src/App.tsx:36 | a well-shaped entry is left as is iff all its elements are valid items |
| StoredCart.InvalidItemsDropped | src/App.tsx:33-50 | with invalid elements, a `null` element removes the entry through the catch; otherwise the entry is rewritten with the valid items in order, or removed when none remain |
| StoredCart.NullElementRemovesEntry | src/App.tsx:33-50 | an item array holding `null` beside a valid item makes the whole entry be removed |
| StoredCart.CleanedUpValid | src/App.tsx:28-46 | a JSON entry left by the cleanup is well shaped with only valid items |
| StoredCart.CleanedUpIdempotent | src/App.tsx:28-46 | cleaning twice is cleaning once |
| StoredCart.EmptyItemsKept | src/App.tsx:36 | a cart with an empty item array is kept |
| RealtimeOrders.OnOrderUpdate | src/hooks/useRealtimeOrders.tsx:81-83 | the single-order view takes the new row, leaving loading and error |
| RealtimeOrders.ReplaceById | src/hooks/useRealtimeOrders.tsx:165-170 | every order with the id is replaced by the new row, order and length kept |
| RealtimeOrders.RemoveId | src/hooks/useRealtimeOrders.tsx:171-174 | keeps exactly the orders with another id |
| RealtimeOrders.ReplaceAbsent | src/hooks/useRealtimeOrders.tsx:264-268 | an update for an order not in the list leaves it unchanged |
| RealtimeOrders.UserApplyEffects | src/hooks/useRealtimeOrders.tsx:163-174 | an insert goes first, an update keeps ids in place, a delete drops exactly that id |
| RealtimeOrders.InitialOutletList | src/hooks/useRealtimeOrders.tsx:220-225 | the initial list is exactly the outlet's active orders |
| RealtimeOrders.OutletApplyKeepsActive | src/hooks/useRealtimeOrders.tsx:251-273 | each handler keeps the list active, for changes the hook's type admits |
| RealtimeOrders.OutletListInvariant | src/hooks/useRealtimeOrders.tsx:251-273 | any sequence of such changes keeps the list active |
| RealtimeOrders.InitialListActive | src/hooks/useRealtimeOrders.tsx:220-225 | the initial list is active |
| RealtimeOrders.OutletApplyMissesPaidOrders | src/hooks/useRealtimeOrders.tsx:251-268 | as written an order inserted as `pending_payment` and then paid never appears |
| RealtimeOrders.OutletApplyUpsertKeepsActive | src/hooks/useRealtimeOrders.tsx:251-273 | corrected handler: keeps the list active for every change |
| RealtimeOrders.OutletApplyUpsertListsUpdated | src/hooks/useRealtimeOrders.tsx:257-269 | corrected handler: an update to an active status lists the order, so a paid order appears |
| VendorConsole.WithStatus | src/pages/VendorConsole.tsx:70-86 | the order with the id gets the new status; all else is unchanged |
| VendorConsole.StartPreparing | src/pages/VendorConsole.tsx:70-77 | the order with the id becomes `preparing`; others unchanged |
| VendorConsole.MarkReady | src/pages/VendorConsole.tsx:79-86 | the order with the id becomes `ready`; others unchanged |
| VendorConsole.ColumnsPartition | src/pages/VendorConsole.tsx:88-90 | the three columns together hold every order once |
| VendorConsole.MoveBetweenColumns | src/pages/VendorConsole.tsx:70-90 | a status change moves the order from its column to the target column |
| VendorConsole.ActionFor | src/pages/VendorConsole.tsx:170-196 | new orders get "start preparing", preparing ones "ready for pickup", ready ones nothing |
| VendorConsole.PressAdvances | src/pages/VendorConsole.tsx:170-196 | pressing an order's button advances it exactly one step and moves nothing back |
| OrdersPage.NatString | src/pages/Orders.tsx:49 | a quantity is written as a non-empty string of decimal digits |
| OrdersPage.DecimalRoundTrip | src/pages/Orders.tsx:49 | the written quantity reads back as the quantity |
| OrdersPage.Labels | src/pages/Orders.tsx:49 | each item row is shown as its name and quantity |
| OrdersPage.BuildItemsMap | src/pages/Orders.tsx:46-51 | the loop maps each order id to its rows' labels in order, with one label per row |
| OrdersPage.BuildOutletsMap | src/pages/Orders.tsx:55-58 | the loop maps each outlet id to its name |
| OrdersPage.FetchedItems | src/pages/Orders.tsx:34-38 | the fetched item rows belong to listed orders |
| OrdersPage.FetchedOutlets | src/pages/Orders.tsx:39-43 | the fetched outlets are those of listed orders |
| OrdersPage.LoadDetails | src/pages/Orders.tsx:28-62 | no orders leaves the maps; otherwise both maps are rebuilt from the fetched rows |
| OrdersPage.OutletName | src/pages/Orders.tsx:100 | the outlet's name, or `Outlet` when missing or empty |
| OrdersPage.ItemsFor | src/pages/Orders.tsx:101 | the order's labels, or none |
| OrdersPage.CardItems | src/pages/Orders.tsx:46-101 | a card shows exactly its order's item labels in row order |
| OrdersPage.StatusConfigAsWritten | src/pages/Orders.tsx:15-20 | as written there is no badge exactly for `cancelled` and `pending_payment` |
| OrdersPage.CancelledOrderHasNoCard | src/pages/Orders.tsx:98-99 | as written a cancelled order's card cannot be drawn |
| OrdersPage.StatusConfig | src/pages/Orders.tsx:15-20 | corrected: the written badges kept, plus `Cancelled` and `Awaiting Payment` |
| OrdersPage.CardOf | src/pages/Orders.tsx:97-101 | every order gets a card with its badge, items and outlet name, agreeing with the written card where that exists |
| OrdersPage.StatusLabelsDistinct | src/pages/Orders.tsx:15-20 | distinct statuses have distinct badge texts |
| Money.RoundHalfUp | supabase/functions/place-order/index.ts:165 | `Math.round` lands within half a unit of its argument |

## Left out

- HTTP plumbing is not modelled: CORS preflight, headers, environment lookups and the `try`/`catch` that turns a thrown error into 500. Each query's rows and error flag are inputs.
- `JSON.parse` of request bodies, webhook payloads and the stored cart is not modelled. Parsed values are inputs; a body that does not parse is answered 500.
- The HMAC-SHA256 digest is a function parameter, because cryptography is out of scope. The signature comparison is ordinary equality, as in the code, so timing is not modelled.
- The email check (`z.string().email`) is a predicate parameter.
- Dates are taken as inputs: `created_at` reduced to a calendar date, weekday and hour, the reporting window's start, and the pickup slot from the `calculate_pickup_time` RPC with its now-plus-30-minutes fallback.
- Money is exact `real` arithmetic, not IEEE doubles. A rounding difference of floating point is not captured.
- Row-level security, database triggers and the `order_statistics` view are not modelled. The view's rows are inputs.
- The rollback delete in `place-order` is assumed to succeed. The code ignores its error, and an order left behind without rows is not modelled.
- Concurrency is not modelled: concurrent requests, realtime delivery order, and React's batching of state updates.
- The order in which the database returns rows is an input, and ties in `.order('order_count')` are not resolved.
- The `Object.entries` order of a JavaScript record is taken as ascending numeric keys for hours. Date keys keep insertion order.
- Sorting is an insertion sort on an integer key. How ties between equal counts or equal dates come out is not claimed to match the JavaScript engine's `Array.prototype.sort`.
- Toasts, navigation side effects other than the target path, loading spinners' timing, `setTimeout` and the Supabase sign-in/sign-up calls are left out. `useRole`, the admin setup function and purely presentational components are left out.
- `Home.tsx` case mapping covers ASCII letters only.
- AdminAnalytics.SummaryOf: the average is stated through `AnalyticsData.Average`, whose own contract gives average times count equals revenue. It is not stated as a quotient.
- VendorAnalytics.SummaryOf: the average is stated through `AnalyticsData.Average` in the same way.
- Analytics.ReportAverage: the average is stated through `AnalyticsData.Average` in the same way.
- PlaceOrder.FailureWritesNothing: this follows from the staged definition of `Outcome` without further proof.
- Recommendations.Query: the contract states the limit and the filter only. The most-ordered-first order of the rows is in its definition, not in its contract.

## Findings

| source | as written | input that shows it | evidently intended | confidence | as-written member | corrected member |
|---|---|---|---|---|---|---|
| src/pages/Orders.tsx:15-20 | `statusConfig` has no entry for `cancelled` or `pending_payment`, so `config.icon` throws while rendering such an order | a user whose order list holds one `cancelled` order | every status has a badge, so the orders page renders | not executed | OrdersPage.CancelledOrderHasNoCard | OrdersPage.CardOf |
| supabase/functions/admin-analytics/index.ts:92 | the average divides revenue by the completed count, but is guarded by the total count | a window with one `placed` order and none completed gives 0 / 0 = NaN | guard on the completed count, as `vendor-analytics` does | not executed | AdminAnalytics.AverageAsWrittenUndefined | AdminAnalytics.SummaryOf |
| supabase/functions/analytics/index.ts:52-56 | a `vendor_staff` row with a null outlet is admitted, and its outlet filter becomes `undefined`, so no filter is applied | vendor row with no outlet asking for outlet 1 sees an order of outlet 2 | refuse a vendor without an outlet, as `vendor-analytics` does | not executed | Analytics.UnboundVendorSeesAllOutlets | Analytics.VendorSeesOwnOutlet |
| src/hooks/useRealtimeOrders.tsx:251-268 | an INSERT in `pending_payment` is skipped, and an UPDATE only replaces orders already listed | an order inserted as `pending_payment` and then updated to `placed` by the webhook never reaches the vendor's list | an update to an active status adds the order when it is missing | not executed | RealtimeOrders.OutletApplyMissesPaidOrders | RealtimeOrders.OutletApplyUpsertListsUpdated |
