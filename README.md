# pestapora ticketing core, in Dafny

pestapora sells event tickets. This project models the order, inventory and ticket lifecycle behind that storefront, and proves properties of the model:

- **Order status machine** (`OrderManager`): the transition table, the status labels, the `paid_at` stamp, the cancel and refund guards, and the expiry sweep.
- **Inventory evaluator** (`InventoryManager`): sold and reserved counts, availability, the checks before a reservation, capacity changes, stock alerts and the display bands.
- **Tickets** (`TicketGenerator`): issuing one ticket per unit of a paid order, the twelve-character verification code, the validation chain, redemption, voiding and the statistics.
- **Payment bridge** (`PaymentAPI`): the intent guards, webhook dispatch, the success, failure and cancellation handlers, refunds and the status mapping.
- **Checkout** (`payment.ts`): order creation with integer fee arithmetic and item price snapshots, and payment confirmation with ticket expansion.
- **Client store** (`useStore`): cart lines keyed by (event, ticket type), seat selection, event filtering and the mock checkout.
- **Data-access layer** (`api.ts`): order creation with items, ticket creation and scanning, user statistics and reservations.
- **E-mail notification service**: the address validator, the status text, the time-left arithmetic, the send guards and the reminder counters.
- **Pages**: the checkout form, the event page's ticket picker, the sign-in and registration guards, and the order status panel.

The persistence tables are in-memory state, `Tables.Db`:
- `orders: map<string, Order>`, keyed by order id;
- `orderItems: seq<OrderItem>` and `tickets: seq<Ticket>`, in table order;
- `ticketTypes`, `eventDates` and `reservations`, as maps.

Code that writes rows is a method with a `modifies` clause on those fields. Each such method is proved against a function of the old state, and properties of that function are proved as lemmas. Code that only computes is a function.

Clocks, random draws and generated ids are parameters:
- `now` is an integer count of milliseconds;
- `draws: nat -> Draw` gives the random parts of the k-th ticket;
- `delivered` is the outcome of an e-mail send.

The code uses two status vocabularies, and the model keeps both:
- `Entities.OrderStatus` holds all eight order status literals the code uses: `created`, `pending`, `pending_payment`, `paid`, `confirmed`, `cancelled`, `expired` and `refunded`;
- `Entities.TicketStatus` holds `issued`, `active`, `valid`, `used` and `void`.

Functions that take status text (labels, `canTransitionTo`, colours) are modelled on strings, with a parse and name round trip.

One module per source file: `OrderManagement`, `InventoryControl`, `TicketGeneration`, `PaymentApi`, `Checkout` (`payment.ts`), `CartStore` (`useStore.ts`), `Api`, `EmailNotifications`, `CheckoutPage`, `EventDetailPage`, `AuthPages` and `OrderStatusView` (`OrderStatus.tsx`). Shared modules:
- `Wrappers`: Option and Result;
- `Text`: decimal digits, ASCII lower case, substring search;
- `Time`: millisecond constants and the hours/minutes split;
- `Entities`: table rows and status vocabularies;
- `Tables`: the in-memory database;
- `Issuance`: the nested loops that expand order items into tickets;
- `Storefront`: the client-side shapes;
- `Sequences`: an order-keeping filter and the count of what passes it.

## Model

| member | source | states |
|---|---|---|
| Entities.ParseOrderStatus | src/types/database.ts:154-190 | A status column reads back only as a status whose name is exactly that text. |
| Entities.OrderStatusRoundTrip | src/types/database.ts:154-190 | Every order status survives being written as text and read back. |
| Entities.ParseTicketStatus | src/types/database.ts:238 | A ticket status column reads back only as the status with that name. |
| Entities.TicketStatusRoundTrip | src/types/database.ts:238 | Every ticket status survives being written as text and read back. |
| Entities.ItemsOf | src/lib/ticketGeneration.ts:53-59 | The order items of one order are `Sequences.Filter` of the table by the order id, so each row carrying the id appears as often as it occurs, in table order, and no other row appears. |
| Entities.TicketsOf | src/lib/ticketGeneration.ts:71-78 | The tickets of one order are `Sequences.Filter` of the table by the order id: the rows carrying it, with their multiplicity and in table order, and no other rows. |
| Time.Split | src/components/OrderStatus.tsx:201-202 | Whole hours and leftover whole minutes: minutes below 60, with hours·3600000 + minutes·60000 ≤ t < that + 60000. |
| Text.NatToString | src/components/OrderStatus.tsx:204 | The decimal text of a number is non-empty and all digits, and has two or more digits from 10 upward. |
| Text.NatToStringInjective | src/components/OrderStatus.tsx:204 | Different numbers have different decimal texts. |
| Text.IntToString | src/store/useStore.ts:213 | The text of a non-negative integer is its decimal text; a negative one starts with '-'. |
| Text.Lower | src/store/useStore.ts:97-99 | `toLowerCase` keeps the length, leaves no ASCII capital, moves each capital to its small letter and leaves every other character. |
| Text.LowerKeepsLowerCase | src/store/useStore.ts:97-99 | A text without capitals is its own lower case. |
| Text.LowerIsIdempotent | src/store/useStore.ts:97-99 | Lower-casing twice is lower-casing once. |
| Text.LowerIgnoresCase | src/store/useStore.ts:97-99 | Texts that differ only in the case of their letters have the same lower case. |
| Text.Includes | src/store/useStore.ts:97-99 | `includes` holds exactly when the text occurs at some position. |
| Sequences.Filter | src/store/useStore.ts:96-104 | `Array.filter` keeps exactly the elements that pass, and never adds any. |
| Sequences.CountOf | src/lib/orderManagement.ts:250-254 | `filter(p).length` is at most the row count, and zero exactly when no row passes. |
| Issuance.Count | src/lib/ticketGeneration.ts:84 | A `for (i = 0; i < q; i++)` loop runs q times for positive q and never otherwise. |
| Issuance.GroupUnits | src/lib/ticketGeneration.ts:84-96 | One unit per loop turn, numbered 0 onward, of the group's ticket type. |
| Issuance.UnitsOfLength | src/lib/ticketGeneration.ts:83-98 | The nested loops produce as many units as the items' loop counts add up to. |
| Issuance.UnitsComeFromGroups | src/lib/ticketGeneration.ts:83-98 | Every unit produced has the ticket type of one of the items. |
| Issuance.ItemGroups | src/lib/ticketGeneration.ts:83-84 | One group per order item, with its ticket type and quantity. |
| Issuance.Expanded | src/lib/ticketGeneration.ts:83-98 | The k-th ticket pushed is built from the k-th unit and the k-th draw; one ticket per unit. |
| Issuance.Expand | src/lib/ticketGeneration.ts:83-98 | The nested push loops build exactly the expanded ticket list. |
| OrderManagement.Names | src/lib/orderManagement.ts:295-304 | The transition table lists statuses by name, in order. |
| OrderManagement.CanTransitionTo | src/lib/orderManagement.ts:295-309 | A move is allowed iff both texts are statuses and the target is in the current status's list of ORDER_STATUS_FLOW. |
| OrderManagement.TerminalIffNoTransition | src/lib/orderManagement.ts:301-313 | A status is terminal exactly when the table allows no move out of it. |
| OrderManagement.IsPaidStatus | src/lib/orderManagement.ts:315-317 | True exactly for the text that reads back as `paid`, which is not terminal and may move to `refunded`. |
| OrderManagement.PaidOnlyToRefunded | src/lib/orderManagement.ts:300 | From `paid` the only allowed move is to `refunded`. |
| OrderManagement.UnknownStatusIsStuck | src/lib/orderManagement.ts:306-309 | Text that is not a status allows no move. |
| OrderManagement.OrderStatusLabel | src/lib/orderManagement.ts:319-332 | Each status gets a label different from its name; unknown text is shown as it is. |
| OrderManagement.LabelsDistinguishStatuses | src/lib/orderManagement.ts:319-332 | No two statuses share a label. |
| OrderManagement.CreateOrder | src/lib/orderManagement.ts:40-52 | Inserts the row under a fresh id; an id already taken fails and changes nothing. |
| OrderManagement.StatusUpdated | src/lib/orderManagement.ts:57-84 | The new row has the target status and the passed columns. `paid_at` becomes now when the target is `paid`, and changes only then. No other column changes. |
| OrderManagement.UpdateOrderStatus | src/lib/orderManagement.ts:57-84 | A missing id is an error and changes nothing. Otherwise only that row changes, as StatusUpdated says. |
| OrderManagement.UpdateIgnoresTransitionTable | src/lib/orderManagement.ts:57-84 | The update writes `paid` over `refunded` although the table forbids that move. |
| OrderManagement.CancelRefusal | src/lib/orderManagement.ts:190-200 | Cancellation is refused exactly for a missing, `paid` or already `cancelled` order. |
| OrderManagement.CancelOrder | src/lib/orderManagement.ts:187-203 | A refused cancellation returns the reason and changes nothing. Otherwise only that order becomes `cancelled`. |
| OrderManagement.CancelAcceptsTerminalOrders | src/lib/orderManagement.ts:194-200 | `expired` and `refunded` orders pass the cancel guard, although they are terminal and the table forbids the move. |
| OrderManagement.ExpireOrder | src/lib/orderManagement.ts:208-210 | Only that order becomes `expired`; a missing id is an error. |
| OrderManagement.RefundRefusal | src/lib/orderManagement.ts:217-223 | A refund is allowed exactly for an existing `paid` order. |
| OrderManagement.RefundOrder | src/lib/orderManagement.ts:215-228 | A refused refund changes nothing. Otherwise only that order becomes `refunded`. |
| OrderManagement.Swept | src/lib/orderManagement.ts:266-290 | After the sweep every `pending` order with `expires_at` < now is `expired`, and every other row is unchanged. |
| OrderManagement.ProcessExpiredOrders | src/lib/orderManagement.ts:266-290 | The batch update leaves the swept table and returns the number of orders selected. |
| OrderManagement.SweepIsIdempotent | src/lib/orderManagement.ts:266-290 | After a sweep nothing is overdue, so a second sweep at the same time selects none and changes nothing. |
| OrderManagement.SweepBoundary | src/lib/orderManagement.ts:271 | An order expiring exactly now is not swept. |
| OrderManagement.OfEvent | src/lib/orderManagement.ts:238-240 | Without an event id (or with an empty one) the query returns every row unchanged. Otherwise it is `Sequences.Filter` by the event id: exactly the event's rows, with multiplicity, in table order. |
| OrderManagement.GetOrderStats | src/lib/orderManagement.ts:233-261 | `total` counts the event's rows. Each of `pending`, `paid`, `cancelled`, `expired` and `refunded` is the count of rows with that status. `totalRevenue` sums `total_cents` over its paid rows. The five counts add up to at most `total`. |
| OrderManagement.StatusCountsPartition | src/lib/orderManagement.ts:248-258 | The eight per-status counts add up to the row count. |
| OrderManagement.UncountedRows | src/lib/orderManagement.ts:248-258 | `total` exceeds the counted statuses by exactly the `created`, `pending_payment` and `confirmed` rows. |
| InventoryControl.StatusOf | src/lib/inventoryControl.ts:29-90 | sold counts paid orders' items; reserved counts `pending` orders expiring after now; available = max(0, capacity − sold − reserved). isSoldOut iff available = 0, isAvailable iff available > 0 and the type is for sale. |
| InventoryControl.InventoryOf | src/lib/inventoryControl.ts:29-40 | A ticket type that does not exist is an error; otherwise the inventory status. |
| InventoryControl.CountsNonNegative | src/lib/inventoryControl.ts:42-69 | With non-negative quantities, sold and reserved are non-negative. |
| InventoryControl.AvailableWithinCapacity | src/lib/inventoryControl.ts:76-78 | With non-negative quantities and capacity, 0 ≤ available ≤ capacity. |
| InventoryControl.HoldEndingNowIsIgnored | src/lib/inventoryControl.ts:51-69 | An order expiring exactly now neither holds tickets nor is swept. |
| InventoryControl.CheckAvailability | src/lib/inventoryControl.ts:116-169 | Success iff the type exists. Available iff it is for sale and the request fits in what is left. A type not for sale reports 0 available. |
| InventoryControl.SoldOutBranchUnreachable | src/lib/inventoryControl.ts:123-141 | The "sold out" answer is never given. |
| InventoryControl.CheckMultiple | src/lib/inventoryControl.ts:174-188 | One entry per ticket type named in the lines, and none for others. |
| InventoryControl.CheckMultipleLastLineWins | src/lib/inventoryControl.ts:174-188 | A type's entry is the check of the last line naming it. |
| InventoryControl.ReserveTickets | src/lib/inventoryControl.ts:195-212 | Succeeds iff every line's entry is successful and available; otherwise it fails on the first failing line. It writes nothing. |
| InventoryControl.ReserveDistinctLines | src/lib/inventoryControl.ts:195-212 | With distinct types, every line is checked with its own quantity. |
| InventoryControl.RepeatedTypeChecksLastLineOnly | src/lib/inventoryControl.ts:174-188 | Two lines of one type are not added up: only the last quantity is checked. |
| InventoryControl.UpdateTicketTypeAvailability | src/lib/inventoryControl.ts:237-253 | Sets only the type's sale flag; a missing type is an error. |
| InventoryControl.CapacityRefusal | src/lib/inventoryControl.ts:262-269 | A new capacity is refused exactly when the type is missing or the capacity is below sold. |
| InventoryControl.UpdateTicketTypeCapacity | src/lib/inventoryControl.ts:258-283 | A refused change writes nothing. Otherwise only the type's capacity changes. |
| InventoryControl.CapacityGuardIgnoresHolds | src/lib/inventoryControl.ts:262-269 | An accepted capacity below sold + reserved leaves nothing available. |
| InventoryControl.EventInventory | src/lib/inventoryControl.ts:95-111 | Exactly the statuses of the event's ticket types marked `is_available`: each such type is listed, and nothing else is. |
| InventoryControl.LowStockAlerts | src/lib/inventoryControl.ts:288-299 | Exactly the event's statuses that are for sale with 0 < available ≤ threshold (10 by default). |
| InventoryControl.SoldOutTicketTypes | src/lib/inventoryControl.ts:304-308 | Exactly the event's sold-out statuses. |
| InventoryControl.AlertsAndSoldOutDisjoint | src/lib/inventoryControl.ts:288-308 | No type is both an alert and sold out, and alerts at the default threshold show orange or yellow. |
| InventoryControl.CleanupExpiredReservations | src/lib/inventoryControl.ts:314-340 | The same sweep as processExpiredOrders, returning how many orders it expired. |
| InventoryControl.FormatInventoryStatus | src/lib/inventoryControl.ts:344-358 | "Sold Out" exactly for sold-out types. |
| InventoryControl.InventoryColor | src/lib/inventoryControl.ts:360-374 | Red exactly for sold-out types. |
| InventoryControl.FormatAndColorAgree | src/lib/inventoryControl.ts:344-374 | Text and colour follow the same bands in the same order: sold out, ≤ 5, ≤ 20, more. |
| TicketGeneration.QrCodeUrl | src/lib/ticketGeneration.ts:166-181 | The QR link starts with the verification base URL. |
| TicketGeneration.IssuedTickets | src/lib/ticketGeneration.ts:83-98 | One `active` ticket per unit of the order's items. Each copies the order, user and event from the order and the ticket type from its item, and has `qr_payload` equal to `qr_code`. |
| TicketGeneration.IssuedTicketTypesComeFromItems | src/lib/ticketGeneration.ts:83-98 | Each issued ticket has the ticket type of one of the order's items. |
| TicketGeneration.GenerateTicketsForOrder | src/lib/ticketGeneration.ts:46-116 | Fails for a missing order, an order that is not `paid`, or an order that already has tickets. Fails with a missing event exactly when at least one ticket would be built for an event without a date. Every failure writes nothing. Every other call succeeds and appends exactly the issued tickets. |
| TicketGeneration.Pick | src/lib/ticketGeneration.ts:157-158 | A draw in [0, 1) picks a position inside the alphabet. |
| TicketGeneration.AlphabetIsUpperAlphanumeric | src/lib/ticketGeneration.ts:155 | Every character of the alphabet is A-Z or 0-9. |
| TicketGeneration.GenerateVerificationCode | src/lib/ticketGeneration.ts:154-161 | Exactly 12 characters, the i-th picked by the i-th draw, each A-Z or 0-9. |
| TicketGeneration.CodeIndex | src/lib/ticketGeneration.ts:270-279 | The first ticket carrying the code. |
| TicketGeneration.SameCodesSameLookup | src/lib/ticketGeneration.ts:270-279 | Rewriting other columns leaves the lookup by code unchanged. |
| TicketGeneration.ValidateTicket | src/lib/ticketGeneration.ts:268-346 | Checks run in order. "not found" exactly when the code is not on exactly one ticket. Then `used` (reporting the use time), then `void`. "event passed" exactly when the ticket is neither, its event date is known and now is past start + 24 h. An unjoinable event, type or order is an error. Valid iff one ticket has the code and every check passes. |
| TicketGeneration.StoredGate | src/lib/ticketGeneration.ts:366 | An empty or absent gate id is stored as null. |
| TicketGeneration.Redeemed | src/lib/ticketGeneration.ts:361-368 | Tickets with the code become `used`, stamped with now and the gate. The others are unchanged. |
| TicketGeneration.UseTicket | src/lib/ticketGeneration.ts:351-390 | An invalid validation is returned as it is and nothing is written. A valid one is redeemed and reported as used now. |
| TicketGeneration.RedeemAtMostOnce | src/lib/ticketGeneration.ts:289-368 | After a redemption the same code is refused as already used, with the first use time. |
| TicketGeneration.Voided | src/lib/ticketGeneration.ts:397-400 | Every ticket of the order becomes `void`, used ones included; other orders' tickets are unchanged. |
| TicketGeneration.VoidTickets | src/lib/ticketGeneration.ts:395-411 | The tickets table becomes the voided table. |
| TicketGeneration.VoidedTicketsAreRefused | src/lib/ticketGeneration.ts:397-400 | After voiding, a code of the order is refused as void, even when it had been used. |
| TicketGeneration.TicketsOfEvent | src/lib/ticketGeneration.ts:418-421 | `Sequences.Filter` by the event id: exactly the event's rows, with multiplicity, in table order; rows without an event never match. |
| TicketGeneration.TicketStatusPartition | src/lib/ticketGeneration.ts:427-431 | The five status counts add up to the row count. |
| TicketGeneration.GetTicketStats | src/lib/ticketGeneration.ts:416-440 | `total` counts the event's rows; `active`, `used` and `void` are the counts of rows with those statuses. Together they fall short of the total by exactly the `issued` and `valid` rows. |
| TicketGeneration.FormatTicketStatus | src/lib/ticketGeneration.ts:467-476 | Unknown statuses are shown as they are. |
| TicketGeneration.TicketStatusColor | src/lib/ticketGeneration.ts:478-487 | Unknown statuses are gray. |
| TicketGeneration.ValidTicketsShownRaw | src/lib/ticketGeneration.ts:467-487 | `valid` tickets, which the checkout writers issue, are shown untranslated and gray. |
| TicketGeneration.IsTicketValid | src/lib/ticketGeneration.ts:489-499 | Holds iff the status is `active` and now ≤ event start + 24 hours. |
| TicketGeneration.ValidityBoundaryAgrees | src/lib/ticketGeneration.ts:489-499 | For an active ticket, validateTicket and isTicketValid agree. A `valid` or `issued` ticket can pass validateTicket but never isTicketValid. |
| PaymentApi.IntentRefusal | src/lib/api/paymentApi.ts:52-70 | Guards in order: the order exists, is `pending`, has not expired, and the amount equals `total_cents`. |
| PaymentApi.CreatePaymentIntent | src/lib/api/paymentApi.ts:47-91 | An expired order is marked `expired` and refused. Other refusals write nothing. On success the intent id and the method `stripe` are stored, and the status stays `pending`. |
| PaymentApi.IntentOrder | src/lib/api/paymentApi.ts:129-137 | The intent lookup finds an order only when exactly one order carries the intent id. |
| PaymentApi.BridgeTickets | src/lib/api/paymentApi.ts:296-320 | One `active` ticket per unit of the order's items, for the order's user and event. |
| PaymentApi.GenerateBridgeTickets | src/lib/api/paymentApi.ts:280-331 | Appends the bridge tickets without looking for existing ones. |
| PaymentApi.AfterSuccess | src/lib/api/paymentApi.ts:126-153 | An unknown intent changes nothing. Otherwise the order becomes `paid` with `paid_at` = now and its tickets are appended; there is no already-paid check. |
| PaymentApi.HandlePaymentSuccess | src/lib/api/paymentApi.ts:126-153 | Writes the after-success tables, and fails exactly when the intent is unknown. |
| PaymentApi.PaidStampKeepsIntent | src/lib/api/paymentApi.ts:140-143 | Marking an order paid keeps its intent id, so the intent still finds it. |
| PaymentApi.ReplayedSuccessIssuesTwice | src/lib/api/paymentApi.ts:140-143 | A replayed success event finds the same order and appends its tickets a second time. |
| PaymentApi.HandlePaymentFailure | src/lib/api/paymentApi.ts:158-178 | Only looks the intent up; no order changes. |
| PaymentApi.AfterCancellation | src/lib/api/paymentApi.ts:183-205 | An unknown intent is ignored. Otherwise only that order becomes `cancelled`, whatever its status. |
| PaymentApi.HandlePaymentCancellation | src/lib/api/paymentApi.ts:183-205 | The orders table becomes the after-cancellation table. |
| PaymentApi.CancellationOverridesPaid | src/lib/api/paymentApi.ts:183-205 | A `paid` order whose intent is cancelled ends `cancelled`, a move the table forbids. |
| PaymentApi.HandleWebhook | src/lib/api/paymentApi.ts:96-121 | Dispatches only on the succeeded, failed and canceled event types; any other type changes nothing. |
| PaymentApi.ProcessRefund | src/lib/api/paymentApi.ts:234-275 | A missing or unpaid order returns failure and changes nothing. Otherwise the order becomes `refunded`, all its tickets become `void`, and the call succeeds with the `re_` refund id. |
| PaymentApi.MapOrderStatusToPaymentStatus | src/lib/api/paymentApi.ts:355-372 | `paid` maps to paid, `expired` to failed, `cancelled` and `refunded` to cancelled, everything else to pending. |
| PaymentApi.ValidatePaymentAmount | src/lib/api/paymentApi.ts:422-424 | Holds iff 0 < amount ≤ 100000000. |
| PaymentApi.CleanupExpiredOrders | src/lib/api/paymentApi.ts:377-386 | The processExpiredOrders sweep and its count. |
| Checkout.CartTotalIsSubtotalInCents | src/lib/payment.ts:55-57 | The cart total in cents is 100 times the storefront subtotal. |
| Checkout.ServiceFee | src/lib/payment.ts:60 | `Math.round(total · 0.1)`: the nearest whole number to a tenth, with halves rounded up. |
| Checkout.ServiceFeeExample | src/lib/payment.ts:55-61 | A subtotal of 100000 gives a fee of 10000 and a total of 110000. |
| Checkout.FinalTotalWithinPaymentLimit | src/lib/payment.ts:55-61 | A positive checkout total passes the payment amount check iff the subtotal is at most 90909091 cents. |
| Checkout.CartGroups | src/lib/payment.ts:47-50 | One inventory line per cart line, with its ticket type and quantity; OrderLinesKeepGroups and IssuedFromCheckedLines tie these lines to the issued tickets. |
| Checkout.OrderLines | src/lib/payment.ts:80-85 | One order item per cart line, with the same type and quantity and a unit price of price·100. |
| Checkout.OrderLinesTotal | src/lib/payment.ts:80-85 | The order items add up to the cart total before the fee. |
| Checkout.OrderLinesKeepGroups | src/lib/payment.ts:47-50 | The stored order items carry the same types and quantities, in the same order, as the lines checked against inventory. |
| Checkout.IssuedFromCheckedLines | src/lib/payment.ts:164-168 | For an order id without earlier items, the groups confirmPayment issues tickets from are the lines createOrder checked against inventory. |
| Checkout.CreateOrder | src/lib/payment.ts:38-118 | Refuses without a user. Checks availability before any write, and an unavailable cart writes nothing. The order insert fails exactly for an empty cart or a taken id, and writes nothing. The `pending` order row comes before its items, so a failed item insert leaves the order behind. When every step can succeed it does, and the returned amount is the stored `total_cents`. |
| Checkout.AfterLastDashOfSuffix | src/lib/payment.ts:185 | The text after the last dash of `x-d` is d when d has no dash. |
| Checkout.SplitAtLastDash | src/lib/payment.ts:185 | Splitting at the last dash recovers both halves. |
| Checkout.QrLabelInjective | src/lib/payment.ts:185 | The QR label `QR-{orderId}-{type}-{i}` determines the ticket type and the index. |
| Checkout.ConfirmedTickets | src/lib/payment.ts:176-197 | One `valid` ticket per unit, for the signed-in user, labelled by its ticket type and index. |
| Checkout.ConfirmedLabelsDistinct | src/lib/payment.ts:176-197 | Tickets built for different units never share a QR label. |
| Checkout.ConfirmPayment | src/lib/payment.ts:153-204 | Without a user or order nothing changes. Otherwise the order becomes `paid` with `paid_at` = now and the confirmed tickets are appended. |
| Storefront.SubtotalAppend | src/store/useStore.ts:209 | Adding a line adds price·quantity to the subtotal and its quantity to the total quantity. |
| CartStore.Bumped | src/store/useStore.ts:141-147 | Lines with the key get the added quantity; the other lines are unchanged. |
| CartStore.AddedToCart | src/store/useStore.ts:136-153 | The key ends up in the cart. The length grows by at most one, and not at all when the key was already there. |
| CartStore.KeyCountOfDistinct | src/store/useStore.ts:138-140 | In a cart without duplicates each key occurs once. |
| CartStore.KeyCountAbsent | src/store/useStore.ts:138-140 | A key not in the cart occurs zero times. |
| CartStore.BumpedQuantity | src/store/useStore.ts:141-147 | Merging adds the quantity once per line with the key. |
| CartStore.AddRaisesQuantity | src/store/useStore.ts:136-153 | Without duplicates, addToCart raises the total quantity by exactly the item's quantity. |
| CartStore.AddKeepsKeysDistinct | src/store/useStore.ts:136-153 | addToCart never creates a duplicate key. |
| CartStore.AddKeepsExistingPrice | src/store/useStore.ts:141-147 | Merging keeps the existing line's price. |
| CartStore.RemovedFromCart | src/store/useStore.ts:155-162 | Exactly the lines without the key remain. |
| CartStore.RemoveUndoesAdd | src/store/useStore.ts:136-162 | Removing a freshly appended key gives the cart back. |
| CartStore.RemoveKeepsOrder | src/store/useStore.ts:155-162 | Removal keeps the remaining lines in their order. |
| CartStore.RemoveKeepsKeysDistinct | src/store/useStore.ts:155-162 | Removal keeps keys distinct. |
| CartStore.CartQuantityUpdated | src/store/useStore.ts:164-178 | A quantity ≤ 0 removes the key. Otherwise only matching lines get the quantity. |
| CartStore.UpdateMissingKeyIsNoOp | src/store/useStore.ts:164-178 | Updating a missing key changes nothing. |
| CartStore.UpdateKeepsKeysDistinct | src/store/useStore.ts:164-178 | Updating keeps keys distinct. |
| CartStore.SeatSelected | src/store/useStore.ts:185-190 | The seat is appended, marked selected, only when its id is absent. |
| CartStore.SeatDeselected | src/store/useStore.ts:192-195 | Every seat with the id is removed, and the others remain. |
| CartStore.SelectKeepsSeatIdsDistinct | src/store/useStore.ts:185-190 | Selecting keeps seat ids distinct. |
| CartStore.DeselectKeepsSeatIdsDistinct | src/store/useStore.ts:192-195 | Deselecting keeps seat ids distinct. |
| CartStore.DeselectUndoesSelect | src/store/useStore.ts:185-195 | Deselecting a freshly selected seat restores the selection. |
| CartStore.FilteredEvents | src/store/useStore.ts:91-108 | The filtered list is no longer than the event list. |
| CartStore.FilteredEventsAreWanted | src/store/useStore.ts:91-108 | The filtered list is the events that pass both filters, in their original order. |
| CartStore.FilteredEventsMembership | src/store/useStore.ts:95-105 | An event is kept iff it matches a non-empty query case-insensitively in its title, description or venue, and has the category unless the category is '' or 'ALL'. |
| CartStore.QueryCaseIgnored | src/store/useStore.ts:95-105 | A lower-cased query keeps exactly the same events as the query itself. |
| CartStore.Store.constructor | src/store/useStore.ts:73-85 | The store starts with the events, an empty cart, no seats and no user. |
| CartStore.Store.FilterEvents | src/store/useStore.ts:91-108 | Stores the filtered events, the query and the category. |
| CartStore.Store.AddToCart | src/store/useStore.ts:136-153 | The cart becomes the merged cart, its total quantity rises by the item's quantity, and keys stay distinct. |
| CartStore.Store.RemoveFromCart | src/store/useStore.ts:155-162 | The cart becomes the cart without the key. |
| CartStore.Store.UpdateCartQuantity | src/store/useStore.ts:164-178 | The cart becomes the updated cart. |
| CartStore.Store.ClearCart | src/store/useStore.ts:180 | The cart becomes empty. |
| CartStore.Store.SelectSeat | src/store/useStore.ts:185-190 | The seats become the selection with the seat added. |
| CartStore.Store.DeselectSeat | src/store/useStore.ts:192-195 | The seats become the selection without the id. |
| CartStore.Store.ProcessPayment | src/store/useStore.ts:200-220 | Fails without a user, leaving the cart. Otherwise it returns a `confirmed` order of the cart lines with total Σ price·quantity, and empties the cart. |
| Api.ItemRows | src/lib/api.ts:235-240 | The item rows copy each input item's type, quantity and unit price. |
| Api.ItemsOfAppended | src/lib/api.ts:235-246 | Rows appended for one order are found after its earlier rows, in order. |
| Api.CreateOrder | src/lib/api.ts:213-249 | Inserts a `pending` order with the given total. Then it inserts one item per input item; a failed item insert reports an error and leaves the order behind. |
| Api.CreatedItemsAreFound | src/lib/api.ts:220-246 | A new order's items are exactly its input items. |
| Api.NoItemsOf | src/lib/api.ts:235-246 | An order id with no rows has no items. |
| Api.CreateForOrder | src/lib/api.ts:303-329 | Exactly Σ quantity tickets, each `valid`, with the given user and order and its group's ticket type, appended to the table. |
| Api.ScanStamp | src/lib/api.ts:335-338 | `scanned_at` is set exactly for `used`, to now; StatusSetKeepsStamps shows the update keeps stamps on exactly the used rows. |
| Api.IdIndex | src/lib/api.ts:339-341 | The position of a row with the id. |
| Api.StatusSet | src/lib/api.ts:332-345 | Rows with the id get the status and the scan stamp; the others are unchanged. |
| Api.StatusSetKeepsStamps | src/lib/api.ts:335-338 | If every row has a scan stamp exactly when it is used, that still holds after a status update. |
| Api.UpdateTicketStatus | src/lib/api.ts:332-345 | Writes the status update, and succeeds exactly when one row has the id. |
| Api.GetStats | src/lib/api.ts:392-418 | totalOrders and totalTickets are the user's row counts. usedTickets counts `used` tickets and is at most totalTickets. totalSpent·100 is the paid `total_cents` sum. |
| Api.SpentIsPaidRevenue | src/lib/api.ts:410-417 | totalSpent equals the order statistics' revenue of the user's rows, in whole units. |
| Api.CreateReservation | src/lib/api.ts:424-444 | Stores an `active` hold under a fresh id; a taken id fails and changes nothing. |
| Api.AfterRelease | src/lib/api.ts:447-454 | Only that reservation, when present, becomes `released`. |
| Api.ReleaseIsIdempotent | src/lib/api.ts:447-454 | Releasing twice is releasing once. |
| Api.ReleaseReservation | src/lib/api.ts:447-454 | The reservations become the released table; a missing id is no error. |
| EmailNotifications.ValidateEmailShape | src/lib/emailNotifications.ts:670-673 | Valid iff there is no whitespace and exactly one `@`, the local part is non-empty, and the domain has a `.` that is neither its first nor its last character. |
| EmailNotifications.ValidImpliesShape | src/lib/emailNotifications.ts:670-673 | A matching address has that shape. |
| EmailNotifications.ShapeImpliesValid | src/lib/emailNotifications.ts:670-673 | An address of that shape matches. |
| EmailNotifications.ValidateEmailExamples | src/lib/emailNotifications.ts:670-673 | `a@b.co` is valid; `a@b`, `@b.co`, `a@@b.co` and `a b@c.de` are not. |
| EmailNotifications.FormatOrderStatus | src/lib/emailNotifications.ts:591-601 | Five statuses get labels; every other text, `pending_payment` included, is shown as it is. |
| EmailNotifications.EmailLabelsAgainstOrderLabels | src/lib/emailNotifications.ts:591-601 | The e-mail labels agree with the order manager's, except that `pending` gets the label of `pending_payment`, which is itself shown raw. |
| EmailNotifications.TimeLeft | src/lib/emailNotifications.ts:343-346 | max(0, expiry − now) split into hours and minutes below 60; a missing expiry means 24 hours. |
| EmailNotifications.SendPaymentReminder | src/lib/emailNotifications.ts:91-118 | Sent iff the order exists, is `pending_payment`, has an e-mail, and the send succeeds. |
| EmailNotifications.SchedulePaymentReminders | src/lib/emailNotifications.ts:606-634 | The loop counts successful sends. It selects `pending` orders expiring within two hours, none of which passes the `pending_payment` guard, so the count stays 0. |
| EmailNotifications.DeliveryRefusalOf | src/lib/emailNotifications.ts:172-184 | Refused unless the order exists and is `paid`, has an e-mail, and has tickets; checked in that order. |
| EmailNotifications.SendTicketDelivery | src/lib/emailNotifications.ts:168-214 | Sent only for a paid order with tickets, and only when the send succeeds. |
| EmailNotifications.Recipients | src/lib/emailNotifications.ts:139-158 | The recipients are at most the rows, and there are none exactly when no row is a paid order of the event with an e-mail. |
| EmailNotifications.DeliveredAtMostRecipients | src/lib/emailNotifications.ts:139-158 | Delivered reminders never exceed the recipients. |
| EmailNotifications.AllSentReachesEveryRecipient | src/lib/emailNotifications.ts:139-158 | When every send succeeds, the count is the number of recipients. |
| EmailNotifications.SendEventReminder | src/lib/emailNotifications.ts:123-163 | Counts delivered reminders to the event's paid orders that have an e-mail, at most their number. |
| EmailNotifications.ScheduledAtMostRecipients | src/lib/emailNotifications.ts:639-666 | Over all upcoming events, deliveries never exceed the recipients. |
| EmailNotifications.ScheduleEventReminders | src/lib/emailNotifications.ts:639-666 | Adds up sendEventReminder over the events starting within a day, at most their recipients. |
| CheckoutPage.ValidationErrors | src/pages/CheckoutPage.tsx:44-57 | One error per empty field, with that field's message, and no other key. |
| CheckoutPage.DisplayedFee | src/pages/CheckoutPage.tsx:34 | The displayed fee is a tenth of the subtotal. |
| CheckoutPage.DisplayedFeeMatchesOrderFee | src/pages/CheckoutPage.tsx:33-34 | For whole-unit prices the displayed fee is the cent fee createOrder charges. |
| CheckoutPage.CheckoutForm.constructor | src/pages/CheckoutPage.tsx:12-25 | The form starts with the user's e-mail and name and every other field empty. |
| CheckoutPage.CheckoutForm.HandleInputChange | src/pages/CheckoutPage.tsx:37-42 | Updates only that field, and clears only that field's non-empty error. |
| CheckoutPage.CheckoutForm.ValidateForm | src/pages/CheckoutPage.tsx:44-58 | True iff all nine fields are filled; the errors become the validation errors. |
| CheckoutPage.CheckoutForm.HandleSubmit | src/pages/CheckoutPage.tsx:61-85 | An invalid form stops before payment. Without a user the payment fails and `submit` reports it. Otherwise the cart becomes an order paid by credit card. |
| EventDetailPage.FindType | src/pages/EventDetailPage.tsx:25 | The found type is in the list with that id; none means no type has it. |
| EventDetailPage.Clamp | src/pages/EventDetailPage.tsx:28-29 | The stored quantity lies in [0, min(maxQuantity, available)], and an in-range request is kept. |
| EventDetailPage.ClampIsIdempotent | src/pages/EventDetailPage.tsx:28-29 | Clamping twice is clamping once. |
| EventDetailPage.WithEntry | src/pages/EventDetailPage.tsx:31-34 | `{...prev, [id]: q}` overwrites the key in place or adds it at the end. |
| EventDetailPage.QuantityChanged | src/pages/EventDetailPage.tsx:24-35 | An unknown type changes nothing; a known one sets only its own key to the clamped quantity. |
| EventDetailPage.QuantityChangeKeepsPicksWell | src/pages/EventDetailPage.tsx:24-35 | Picks stay distinct, of known types, and within range. |
| EventDetailPage.EntryLine | src/pages/EventDetailPage.tsx:44-53 | An entry adds one line exactly when its quantity is positive and its type is known, at that type's price. |
| EventDetailPage.AdditionsAreKnownPositiveLines | src/pages/EventDetailPage.tsx:43-55 | Every added line has a positive quantity, a known type and that type's price. |
| EventDetailPage.SelectedMatchesAdditions | src/pages/EventDetailPage.tsx:43-60 | With non-negative picks, the displayed ticket count is the quantity added. |
| EventDetailPage.PriceMatchesAdditions | src/pages/EventDetailPage.tsx:43-64 | With non-negative picks, the displayed price is the subtotal of what is added. |
| EventDetailPage.AddAllKeepsKeysDistinct | src/pages/EventDetailPage.tsx:43-55 | Adding the lines one by one keeps cart keys distinct. |
| EventDetailPage.AddAllQuantity | src/pages/EventDetailPage.tsx:43-55 | Adding the lines one by one adds their quantities. |
| EventDetailPage.EventView.constructor | src/pages/EventDetailPage.tsx:13-14 | The picker starts empty. |
| EventDetailPage.EventView.HandleTicketQuantityChange | src/pages/EventDetailPage.tsx:24-35 | The picks become the changed picks and stay well formed. |
| EventDetailPage.EventView.HandleAddToCart | src/pages/EventDetailPage.tsx:37-58 | Nothing is added without a user. Otherwise addToCart runs for each addition, in entry order. |
| AuthPages.Utf16Length | src/pages/AuthPages.tsx:141 | `length` counts UTF-16 code units: between one and two per character. |
| AuthPages.LoginRefusal | src/pages/AuthPages.tsx:21-25 | Refused with the "required" text iff the e-mail or the password is empty. |
| AuthPages.RegisterRefusal | src/pages/AuthPages.tsx:129-145 | Checks in order, each message an iff: an empty field gives the required message, then a mismatch gives the mismatch message, then fewer than 6 UTF-16 code units gives the weak-password message. It passes only when all three checks pass. |
| AuthPages.AstralCharactersCountTwice | src/pages/AuthPages.tsx:141 | A password of three astral characters is long enough. |
| AuthPages.LoginForm.constructor | src/pages/AuthPages.tsx:9-12 | Empty fields, no error, not loading. |
| AuthPages.LoginForm.HandleSubmit | src/pages/AuthPages.tsx:16-35 | signIn is called iff the guard passes; loading ends false. On failure the error is the thrown message, or "INVALID CREDENTIALS". |
| AuthPages.RegisterForm.constructor | src/pages/AuthPages.tsx:114-120 | Empty fields, no error, not loading, no success. |
| AuthPages.RegisterForm.HandleSubmit | src/pages/AuthPages.tsx:124-158 | signUp is called iff every guard passes, and a refusal shows its text. Success is set only when signUp resolves, and loading ends false. |
| OrderStatusView.Remaining | src/components/OrderStatus.tsx:197-202 | Nothing remains iff expiry − now ≤ 0; otherwise whole hours and minutes below 60. |
| OrderStatusView.RemainingText | src/components/OrderStatus.tsx:204 | The remaining-time text starts with a digit. |
| OrderStatusView.TimeRemaining | src/components/OrderStatus.tsx:194-205 | "Kedaluwarsa" iff expiry − now ≤ 0; otherwise the hours-and-minutes text. |
| OrderStatusView.DigitRunSplit | src/components/OrderStatus.tsx:204 | A digit run followed by a non-digit splits in one way only. |
| OrderStatusView.RemainingTextInjective | src/components/OrderStatus.tsx:204 | Different remaining times read differently. |
| OrderStatusView.TimeRemainingDeterminesTimeLeft | src/components/OrderStatus.tsx:194-205 | Two future deadlines that read the same have the same hours and minutes left. |
| OrderStatusView.DeadlineShown | src/components/OrderStatus.tsx:254-261 | A deadline is shown iff the order is `pending_payment`: "Tidak ada batas waktu" without an expiry, else the time remaining. |
| OrderStatusView.StatusText | src/components/OrderStatus.tsx:153-168 | Unknown statuses are shown as they are; known ones get a different, non-empty label. |
| OrderStatusView.StatusTextAgreesWithEmail | src/components/OrderStatus.tsx:153-168 | The badge uses the e-mail service's status table. |
| OrderStatusView.PendingPaymentShownRaw | src/components/OrderStatus.tsx:153-168 | An order's own `pending_payment` is shown raw. |
| OrderStatusView.StatusColor | src/components/OrderStatus.tsx:170-184 | `cancelled` and `expired` share the red classes; gray iff the status is unknown. |
| OrderStatusView.StatusIcon | src/components/OrderStatus.tsx:136-151 | A clock exactly for statuses other than paid, cancelled, expired and refunded; a gray clock iff the status is unknown. |
| OrderStatusView.IconAndColorGroupAlike | src/components/OrderStatus.tsx:136-184 | Two statuses share an icon iff they share a colour. |
| OrderStatusView.OrderPanel.constructor | src/components/OrderStatus.tsx:42-46 | No order shown yet, loading, no error. |
| OrderStatusView.OrderPanel.LoadOrderDetails | src/components/OrderStatus.tsx:48-67 | Shows the stored order, or the not-found error and keeps what was shown; loading ends false. |
| OrderStatusView.OrderPanel.HandleCancelOrder | src/components/OrderStatus.tsx:82-100 | Nothing happens unless the order shown is `pending_payment`. A refused cancellation shows the failure text. A successful one cancels the order and reloads it. |

## Behaviour worth knowing

Each point below is behaviour the code allows that a reader might not expect. The model follows the code, and a lemma exhibits each one:
- Tickets can be issued twice for one order. The payment bridge's generator (src/lib/api/paymentApi.ts:280-331) does not look for existing tickets. A replayed success event (src/lib/api/paymentApi.ts:140-143) finds the same order again and appends its tickets a second time (PaymentApi.ReplayedSuccessIssuesTwice).
- Terminal orders can be cancelled. The guard in cancelOrder (src/lib/orderManagement.ts:194-200) refuses only `paid` and `cancelled`, so `expired` and `refunded` orders pass it (OrderManagement.CancelAcceptsTerminalOrders).
- Paid orders can be cancelled. The payment-cancellation handler (src/lib/api/paymentApi.ts:183-205) cancels an order whatever its status, including `paid` (PaymentApi.CancellationOverridesPaid).
- Used tickets can become void. voidTickets (src/lib/ticketGeneration.ts:395-411) and processRefund (src/lib/api/paymentApi.ts:257-261) update every ticket of the order, and a used code is then refused as void (TicketGeneration.VoidedTicketsAreRefused).
- Capacity can drop below what is held. updateTicketTypeCapacity (src/lib/inventoryControl.ts:262-269) compares the new capacity with sold units only, so a capacity below sold plus reserved is accepted and leaves nothing available (InventoryControl.CapacityGuardIgnoresHolds).

## Left out

- The Supabase client, query builder, row-level security, joins and error codes such as `PGRST116` (src/lib/supabase.ts). The tables are in-memory maps and sequences. Inserts and updates succeed, except for two modelled cases: an id already taken, and the `itemsInsertFails` flag of the two order creators.
- `Checkout.CreateOrder`: the empty-cart case is modelled as a failing order insert, because `event_id` is then undefined for a NOT NULL column.
- `Checkout.CreateOrder`: the row's `expires_at` is the `holdUntil` parameter, standing for the column default the code relies on.
- Stripe (`loadStripe`), the simulated network delays and the mock intent ids. Ids and client secrets are parameters or the `now`-based text of the mock.
- `Math.random`, `Date.now` and ids from `toString(36)` are parameters; the verification code is modelled by its length and alphabet.
- Each call reads `Date.now()` once, so repeated clock reads within one call see the same `now`.
- The refund amount of processRefund (`amount || total_cents`) is only logged and never sent anywhere, so the model does not compute it.
- `TicketGeneration.QrCodeUrl`: the JSON and base64 encoding of the QR data is the `encode` parameter; only the base URL is stated.
- The e-mail HTML and text templates and the 95% random success of `sendEmail`; the send outcome is the `delivered` parameter.
- `sanitizeEmailContent`: regular expressions with lazy `.*`, and removal can recreate `javascript:`; it promises nothing to prove.
- `sendOrderConfirmation` and the confirmation template: they only assemble and send an e-mail.
- Floating point:
  - `CheckoutPage.DisplayedFee` is an exact real, not the JavaScript float `subtotal * 0.1`;
  - `Api.GetStats` gives `totalSpent` as an exact real;
  - `usageRate`, `conversionRate`, `Intl.NumberFormat` currency formatting and locale dates are not modelled.
- Concurrency: `Promise.all` fan-outs and the check-then-insert oversell race. Each call is one sequential step.
- Row order of query results is the table order in the model.
- `OrderManagement.StatusUpdated`: the `additionalData` object of updateOrderStatus is narrowed to the two columns its callers pass, `stripe_payment_intent_id` and `payment_method`. Other columns it could carry are not modelled.
- `Object.entries` order on the event page is insertion order. Integer-like keys, which JavaScript lists first, are not modelled.
- `Text.Lower` lower-cases ASCII only, not the full Unicode `toLowerCase`.
- `OrderManagement.CanTransitionTo` and the status tables do not model prototype keys such as `constructor` resolving to inherited members.
- `OrderStatusView.TimeRemaining`: an unparsable `expires_at`, which gives NaN in JavaScript, is not modelled; the expiry is an integer.
- The `onStatusChange` callback, the 30-second polling, `handleResendEmail` and `handleDownloadTicket` in OrderStatus.tsx.
- The `setTimeout` navigation after registration, and all page navigation, are not modelled; the destination is a result.
- The mock `login`, `logout` and `register` of the store (a hard-coded password), and the fixture events. `isAuthenticated` is `user.Some?`.
- A negative quantity makes the issuing loops run zero times (`Issuance.Count`), as in the code.
- Operations that only read or log, outside the properties modelled:
  - getOrderWithDetails, getOrdersByUser, getPaymentStatus, getPaymentAnalytics and generateOrderReference;
  - getTicketDetails, getUserTickets and generateTicketPDF;
  - releaseReservation in inventoryControl.ts, which only logs.
- The ticket-number text and the event-code substring of a ticket number are draws, not computed.
- Pure UI files: HomePage, Header, Footer, EventCard, EventFilters, EventGrid, EventsPage, BrutalButton, BrutalInput, App, OrderConfirmationPage, CartPage and MyTicketsPage.
