# Point-of-sale model

A Dafny model of the restaurant point of sale in `src/`: orders, counter checkout, gateway webhooks, the cash
register, reservations, tables, zones and stock as one transition system over a shared database, and the
self-contained algorithms beside it (modifier selection, the stock ledger, the two smallest-unused-number
searches, the CSV printer, wildcard origins, the day reports).

## How it is built

- `Store` holds the rows the services share: as a value (`State`) and as the object they update
  (`Database`). `Services` has one class per service; each method follows its source method write by write
  and is proved equal to a specification function on `State` (`Orders`, `Payments`, `CashRegister`,
  `Reservations`, `Inventory`, `FloorPlan`). A call that throws leaves the rows as far as the source had
  already written them, which in a reachable state differs from undoing them for one kind of seating only:
  `Atomicity.FailureChangesExactly`.
- `Pos` makes every public call one step. A run is any list of calls, for any restaurants and with any
  arguments, from an empty database; a state is reachable when some run ends in it. `PointOfSale` puts the
  services together: serving a list of calls on a fresh database ends in the rows of that run.
- `OrderEffects`, `MoneyEffects`, `FloorEffects` and `BookingEffects` say for every call what it answers and writes,
  told by its arguments and the rows before it without the specification functions: sums and rounding bounds for
  amounts, permutations for choices, words for names, other calls for what a reservation stands for.
- `Evolution` and `Frames` say how rows may change in one step, and what a call leaves alone; the theorem
  modules build on them: `OrderLife`, `OrderLines`, `PaymentSafety`, `RegisterSafety`, `Tenancy`, `TableHolds`,
  `Commitments`, `OpenTickets`, `Reopening`, `Atomicity`, `StockLedger`, `UniqueNames`. `Counterexamples` holds the
  runs that reach the failures listed below.
- `Modifiers`, `ZoneNaming`, `Names`, `Decimal`, `Csv`, `Cors` and `Reports` stand on their own.

`dafny verify dfyconfig.toml` checks everything.

Reservation statuses PENDING, CONFIRMED and CANCELLED are called `Waiting`, `Committed` and `CalledOff`, and
the payment column `method` is `tender`. Tax is an exact ratio, rounded half up as `Math.round` does. The
bounds the request classes check (quantity at least 1, percentage at most 100, price at least 0, stock
quantity at least 0, an updated zone code of one to ten ASCII letters and digits) are types.

## Where the code does less than one might expect

For each of these the first lemma named gives a concrete input, a list of calls on an empty database wherever
the failure is one of the services' shared rows, and the second the exact condition, in terms a caller can check
before the call:

- Removing a menu item nulls the link of a stock item of another restaurant, because creating a stock item does
  not check whose menu item it names: `Counterexamples.RemovalCanLeak`, `Tenancy.RemoveMenuIsolated`.
- An intent whose gateway reference is already one of another restaurant's payments overwrites that payment's
  amount: `Counterexamples.IntentCanLeak`, `Tenancy.IntentIsolated`. This takes a gateway that answers twice with
  the same reference; the one in src/payments/gateway/stripe.gateway.ts asks for a new intent each time. These two
  are the only ways a call for one restaurant moves a row of another (`Tenancy.NonInterference`), and with unused
  references the removal is the only one (`Tenancy.OnlyRemovalLeaks`).
- Seating a deposit writes the order and the reservation before it tries the deposit as a discount
  (src/reservations/reservations.service.ts:284-327). With a deposit over what a walk-in at the reserved table has
  ordered, the call fails and the reservation is SEATED and linked to the walk-in's order all the same. No other
  failed call changes a row: `Counterexamples.SeatCanFailLate`, `Atomicity.FailureChangesExactly`.
- Confirming a paid reservation does not look at its table, so a table with an open order can become RESERVED:
  `Counterexamples.ConfirmCanClash`, `OpenTickets.ConfirmTickets`.
- Seating a pre-order does not look for another open order at its table: `Counterexamples.SeatCanClash`,
  `OpenTickets.SeatTickets`. These two are the only ways to lose "one open ticket per table"
  (`OpenTickets.StepTickets`).
- Reopening answers with the newest active order of a table, and a paid order is active until it is completed. A
  party that eats and pays between the booking and the seating of a pre-order leaves a paid order that hides the
  open one: `Counterexamples.ReopenCanAnswerPaid`, `Reopening.ReopenReturnsOpen`.
- Two reservations can be booked on one table. Cancelling either, confirmed or not, makes the table AVAILABLE
  under a confirmed one: `Counterexamples.EndingCanFree`, `Commitments.EndKeeps`.
- An order can be opened at a RESERVED table, and checking it out makes the table AVAILABLE under the confirmed
  reservation, of which one is enough: `Counterexamples.CheckoutCanFree`, `Commitments.CheckoutKeeps`. These two
  are the only ways for a confirmed paid reservation to lose its table (`Commitments.StepCommitments`).
- Only the last webhook event of a payment is remembered, so an older one delivered again after another is
  processed again: `Counterexamples.LateRedeliveryHappens`, `PaymentSafety.WebhookIgnores`.
- The suggested table name is an existing name when 01 to 99 and 100 are all taken:
  `Counterexamples.SuggestionCanExist`, `ZoneNaming.SuggestionIsFree`.
- A suggested table name is refused on creation when a table spells it in other case or with white space around
  it: `Counterexamples.SuggestionCanBeRefused`, `UniqueNames.SuggestionRefused`.
- A single-day report leaves out its day's last millisecond, the range report does not:
  `Reports.LastMillisecondIsMissed`, `Reports.EntryIsDailySummary`.
- A percentage discount, even of nothing, is refused on an order with a sufficiently negative subtotal, which
  negative modifier deltas allow: `Counterexamples.PercentageCanBeRefused`, `OrderLife.DiscountAccepted`.

## Model

| member | source | states |
|---|---|---|
| `RegisterSafety.RegisterConservation` | src/payments/payments.service.ts:101-169 | In every reachable state the takings of all register sessions together equal the totals of exactly the orders checked out at the counter, each counted once. |
| `RegisterSafety.ClosedForever` | src/cash-register/cash-register.service.ts:34-65 | A closed session keeps its row in every later state of every run, and its expected amount stays the sum of its payments. |
| `RegisterSafety.SessionSummaryAgrees` | src/cash-register/cash-register.service.ts:67-103 | In a reachable state a session's reported tenders add up to its total sales, which for a closed session is the expected amount stored at closing. |
| `RegisterSafety.AlwaysRegisterSound` | src/cash-register/cash-register.service.ts:16-65 | In every run at most one session per restaurant is open, every counter payment names a session of its own restaurant, and every closed session agrees with its payments. |
| `RegisterSafety.TakingsArePosTotal` | src/payments/payments.service.ts:152-168 | With sound payments, summing session by session counts each counter payment exactly once. |
| `RegisterSafety.PosTotalIsCheckedOut` | src/payments/payments.service.ts:109-120 | With at most one counter payment per order, the counter payments sum to the totals of the orders they pay. |
| `CashRegister.SummaryAddsUp` | src/cash-register/cash-register.service.ts:86-97 | Without negative amounts, the tenders a summary reports add up to its total; unreported tenders contribute nothing. |
| `CashRegister.SessionPaymentsExactly` | src/cash-register/cash-register.service.ts:75-81 | The payments of a session are exactly the restaurant's successful ones attached to it, each as often as it is there. |
| `PaymentSafety.AlwaysSound` | src/payments/payments.service.ts:87-169 | In every run a counter payment equals its order's total, with paid = amount + change for cash; each order has at most one; a successful payment of any kind means the order is neither DRAFT nor PENDING. |
| `PaymentSafety.PosPaymentForever` | src/payments/payments.service.ts:152-168 | A counter payment row never changes in any later state, and always equals its order's total. |
| `PaymentSafety.NoEarlyReturn` | src/payments/payments.service.ts:109-120 | In a reachable state a PENDING order has no successful payment, so checkout's early return is never taken. |
| `PaymentSafety.CheckoutTakesPayment` | src/payments/payments.service.ts:87-169 | In a reachable state a checkout takes a payment exactly when the caller owns the order, it is PENDING, a session is open and cash covers the total; otherwise nothing changes. It then appends one payment of the order's total to the open session, moves the order to CONFIRMED, and no payment of the order had succeeded before. |
| `PaymentSafety.WebhookTwice` | src/payments/payments.service.ts:248-316 | Delivering an event twice in a row leaves the state delivering it once leaves. |
| `PaymentSafety.WebhookIgnores` | src/payments/payments.service.ts:300-316 | An event changes nothing exactly when it is of another kind, names no known payment, or is the last event of its payment. |
| `PaymentSafety.LateRedeliveryIsProcessed` | src/payments/payments.service.ts:311-314 | An event delivered again after another one for the same payment is processed again: a failed payment becomes successful once more. |
| `Counterexamples.LateRedeliveryHappens` | src/payments/payments.service.ts:300-316 | A run with three events of one payment after which a failed payment is successful again. |
| `PaymentSafety.WebhookOnlyConfirms` | src/orders/orders.service.ts:265-274 | A webhook changes an order only by moving its status from PENDING to CONFIRMED. |
| `Tenancy.NonInterference` | src/payments/payments.service.ts:138-151 | In every reachable state a call for one restaurant leaves every row of another as it was if and only if it is not one of the two leaking calls; a webhook moves rows of its payment's restaurant only. |
| `Tenancy.AlwaysRefs` | prisma/schema.prisma:195-335 | In every run order to table, line to menu item, reservation to table and order, and table to zone all stay inside one restaurant. |
| `Tenancy.StepIsolated` | src/reservations/reservations.service.ts:171-192 | From sound references, any call keeps them sound, and leaves the other restaurant's rows alone exactly when it does not leak, including the table and order updates made by id alone. |
| `Tenancy.CheckoutIsolated` | src/payments/payments.service.ts:125-169 | Checkout's order, table and stock writes stay inside the caller's restaurant. |
| `Counterexamples.RemovalCanLeak` | src/inventory/inventory.service.ts:30-41 | A run of three calls whose last, made for one restaurant, changes another restaurant's stock item. |
| `Counterexamples.IntentCanLeak` | src/payments/payments.service.ts:62-75 | A run of eight calls whose last overwrites the amount of another restaurant's payment with a reused gateway reference. |
| `Tenancy.RemoveMenuIsolated` | src/menu/menu-items.service.ts:88-102 | Removing a menu item moves a row of another restaurant exactly when the caller owns the item, it was never ordered, and that restaurant has a stock item linked to it. |
| `Tenancy.IntentIsolated` | src/payments/payments.service.ts:42-75 | Creating an intent moves a row of another restaurant exactly when the caller owns the order, it is PENDING, and the reference answered is that of one of its payments with another amount. |
| `Tenancy.OnlyRemovalLeaks` | src/payments/gateway/stripe.gateway.ts:24-38 | In a reachable state, if the gateway answers an intent with a reference no payment has, a call leaves every row of another restaurant as it was if and only if it does not remove a menu item that restaurant has linked stock to. |
| `TableHolds.NeverStuckReserved` | src/reservations/reservations.service.ts:155-193 | In every run a RESERVED table is named by some confirmed pre-order or deposit reservation. |
| `TableHolds.OnlyConfirmReserves` | src/reservations/reservations.service.ts:178-192 | A call that turns a table RESERVED is the confirmation of a paid reservation for that very table. |
| `TableHolds.StepHolds` | src/reservations/reservations.service.ts:210-404 | Every call keeps reserved tables held; every one but confirm reserves no table. |
| `Commitments.CommitmentsAlwaysKept` | src/reservations/reservations.service.ts:178-192 | In every run without a freeing call the table of a confirmed paid reservation is RESERVED or OCCUPIED. |
| `Commitments.StepCommitments` | src/reservations/reservations.service.ts:374-404 | A call keeps that if and only if it does not end a reservation whose RESERVED table another confirmed one holds, or check out an order at a held table. |
| `Commitments.EndKeeps` | src/reservations/reservations.service.ts:387-399 | Ending a reservation frees the table of another confirmed one exactly when its own table is RESERVED and held by that one. |
| `Commitments.CheckoutKeeps` | src/payments/payments.service.ts:133-151 | Checkout frees the table of a confirmed reservation exactly when its guards hold and its order sits at a held table. |
| `Counterexamples.EndingCanFree` | src/reservations/reservations.service.ts:387-399 | A run with two confirmed deposits on one table: cancelling one leaves the other without a held table. |
| `Counterexamples.CheckoutCanFree` | src/payments/payments.service.ts:133-151 | A run with one confirmed pre-order: a walk-in order opened, sent and checked out at its table leaves it without a held table. |
| `Atomicity.FailureChangesExactly` | src/reservations/reservations.service.ts:272-330 | In every reachable state a call fails and yet changes a row if and only if it seats a confirmed deposit whose OCCUPIED table's newest active order, linked to no other reservation and not empty of value, is no longer editable or is worth less than the deposit. |
| `Atomicity.SeatExactly` | src/reservations/reservations.service.ts:210-362 | The same of seating, over its three ways, from any sound references. |
| `Counterexamples.SeatCanFailLate` | src/reservations/reservations.service.ts:284-327 | For every deposit above 500 cents, a run of five calls after which seating answers BadRequest and leaves the reservation SEATED and linked to the walk-in's order. |
| `TableHolds.SeatedWasConfirmed` | src/reservations/reservations.service.ts:210-216 | A reservation seated at the end of a run was CONFIRMED at an earlier point of that run. |
| `TableHolds.SeatedAlwaysHasOrder` | src/reservations/reservations.service.ts:237-362 | In every run a SEATED reservation has an order. |
| `OpenTickets.OneTicketAlways` | src/orders/orders.service.ts:61-88 | In every run without a clashing call, a table that is not OCCUPIED has no DRAFT or PENDING order and an OCCUPIED one has at most one. |
| `OpenTickets.StepTickets` | src/reservations/reservations.service.ts:155-258 | From one ticket per table, a call keeps that if and only if it does not confirm a waiting paid reservation on a table with an open order or seat a confirmed open pre-order on a table with another one. |
| `OpenTickets.ConfirmTickets` | src/reservations/reservations.service.ts:155-193 | Confirming keeps one ticket per table exactly when the reservation is not a waiting paid one whose table has an open order. |
| `OpenTickets.CheckoutTickets` | src/payments/payments.service.ts:133-151 | Freeing the table at checkout leaves no open order at it. |
| `OpenTickets.SeatTickets` | src/reservations/reservations.service.ts:210-362 | The three ways of seating keep one ticket per table exactly when no open pre-order meets another open order. |
| `OpenTickets.AvailableIsFree` | src/reservations/reservations.service.ts:155-193 | Confirming a reservation whose table is AVAILABLE never clashes. |
| `Reopening.ReopenReturnsOpen` | src/orders/orders.service.ts:67-88 | In every run without a clash, asking for an order at a table writes nothing and answers with the table's open order, whenever it has one, if and only if no open order has a younger active order at its table. |
| `Reopening.ReopensExactly` | src/orders/orders.service.ts:76-88 | The same of any state with one ticket per table and sound references. |
| `Reopening.StepNewest` | src/reservations/reservations.service.ts:230-258 | A call keeps every open order the newest active one at its table if and only if it does not seat an active pre-order over an older open order there, or an open one under a younger active order. |
| `Reopening.TidyRunsReopen` | src/orders/orders.service.ts:67-88 | In every run without such a call and without a clash, reopening answers with the open order. |
| `Reopening.CrossingBreaksReopening` | src/reservations/reservations.service.ts:243-258 | After such a run, a call that does not clash leaves reopening right if and only if it does not seat a pre-order that way. |
| `Reopening.PreorderFreeIsTidy` | src/reservations/reservations.service.ts:230-258 | A run without pre-orders has no such call. |
| `Counterexamples.ReopenCanAnswerPaid` | src/orders/orders.service.ts:76-88 | An ordinary run of nine calls, none of which clashes, after which asking for an order at a table with an open pre-order answers with a paid order. |
| `Counterexamples.ConfirmCanClash` | src/reservations/reservations.service.ts:155-193 | A run that confirms a deposit at a table with an open order and so loses one ticket per table. |
| `Counterexamples.SeatCanClash` | src/reservations/reservations.service.ts:230-258 | A run that seats a pre-order at a table with another open order and so has two open orders there. |
| `OrderLife.TotalsAgree` | src/orders/orders.service.ts:418-457 | In every run the delta of each line is the sum of its snapshot and its total (price + delta) * quantity; each order's subtotal is the sum of the line totals, its tax within half a cent of the rate times the subtotal, halves upward, and its total what is left after the discount, or zero. |
| `OrderEffects.PlacesOrder` | src/orders/orders.service.ts:61-186 | Asking for an order answers NotFound without the table, the newest order an OCCUPIED table shows, BadRequest if a line cannot be ordered, and otherwise with a new DRAFT order: line i has the quantity asked for, the price of now and a permutation of the modifiers named, the money is exact, the table OCCUPIED, nothing else written. |
| `OrderEffects.AddsLine` | src/orders/orders.service.ts:276-322 | An item on sale whose selection is accepted is appended as such a line, with every earlier line, the discount and every other row unchanged; otherwise nothing changes. |
| `OrderEffects.SetsQuantity` | src/orders/orders.service.ts:324-367 | In a reachable state the named line gets the quantity asked for, or keeps its own, and an exact total; other lines, the discount and other rows stay. |
| `OrderEffects.DropsLine` | src/orders/orders.service.ts:369-392 | In a reachable state the named line goes; the others stay in order, with the discount and every other row. |
| `OrderEffects.MissingLine` | src/orders/orders.service.ts:324-392 | Changing or removing a line the order does not have answers NotFound. |
| `OrderEffects.EditRefused` | src/orders/orders.service.ts:276-287 | Editing answers NotFound on an order not owned and BadRequest on one past PENDING. |
| `OrderEffects.StoresDiscount` | src/orders/orders.service.ts:459-522 | A fixed discount is stored as it is, a percentage p as the d with 100 d <= p times the sum of the line totals < 100 d + 100, unless it exceeds that sum; lines and other rows stay. |
| `OrderEffects.MovesStatus` | src/orders/order-status.ts:4-16 | An order moves along exactly the five steps forward, or to CANCELLED from before READY, and confirming moves exactly a DRAFT with a line to PENDING. |
| `MoneyEffects.TakesPayment` | src/payments/payments.service.ts:87-169 | In a reachable state a checkout that is not refused appends exactly one payment with the tender and amount of the request, change equal to what exceeds the total, on the open session; it confirms the order and frees its table. |
| `MoneyEffects.OpensSession` | src/cash-register/cash-register.service.ts:16-32 | A session opens with the float asked for unless the restaurant has one open. |
| `MoneyEffects.ClosesSession` | src/cash-register/cash-register.service.ts:34-65 | In a reachable state the open session gets the sum of its own successful payments, the amount counted, and the difference. |
| `MoneyEffects.NothingToClose` | src/cash-register/cash-register.service.ts:34-43 | Without an open session closing answers BadRequest. |
| `MoneyEffects.RecordsIntent` | src/payments/payments.service.ts:42-83 | In a reachable state an intent on a PENDING order sets the amount of the one payment under its reference to the order's total, or appends a payment of that total waiting for the gateway. |
| `MoneyEffects.IntentRefused` | src/payments/payments.service.ts:42-55 | An intent answers NotFound on an order not owned and BadRequest on one not PENDING. |
| `MoneyEffects.RefsAlwaysUnique` | prisma/schema.prisma:360 | In every run a gateway reference names at most one payment. |
| `MoneyEffects.ProcessesEvent` | src/payments/payments.service.ts:264-316 | In a reachable state an event of a payment that is not its last one marks the payment and is remembered; a success confirms its order exactly if that is PENDING; nothing else changes. |
| `FloorEffects.PutsItem` | src/menu/menu-items.service.ts:35-87 | A menu item is written with exactly the columns given, under a new id or one of the restaurant's. |
| `FloorEffects.RemovesItem` | src/menu/menu-items.service.ts:88-102 | A menu item on no line of the restaurant's orders is removed, and exactly the stock linked to it loses the link. |
| `FloorEffects.CreatesStock` | src/inventory/inventory.service.ts:30-41 | A stock item starts with the quantity given, refused if the menu item it names is missing or has one. |
| `FloorEffects.AdjustsStock` | src/inventory/inventory.service.ts:71-104 | The whole delta is logged and the quantity moves by it, not below zero. |
| `FloorEffects.CreatesTable` | src/tables/tables.service.ts:38-47 | A table starts AVAILABLE under its name, refused exactly if a table of the restaurant has the same words as its name in any case. |
| `FloorEffects.RenamesTable` | src/tables/tables.service.ts:49-62 | Only an AVAILABLE table is renamed, and not to the words of another one's name. |
| `FloorEffects.MovesTable` | src/tables/tables.service.ts:64-87 | A table goes to a zone of its restaurant, out of its zone, or stays. |
| `FloorEffects.RemovesTable` | src/tables/tables.service.ts:89-93 | An AVAILABLE table is deleted, and exactly the references of orders and reservations to it become null. |
| `FloorEffects.CreatesZone` | src/zones/zones.service.ts:17-31 | A zone gets the least number after its prefix that no zone counting for it has as code in any case, refused exactly if the code column already has that code. |
| `FloorEffects.RewritesZone` | src/zones/zones.service.ts:40-53 | The name and code given are written, refused exactly if another zone of the restaurant has the code's words in any case. |
| `FloorEffects.RemovesZone` | src/zones/zones.service.ts:85-110 | A zone whose tables are all AVAILABLE goes with them; other rows lose exactly the links to what is gone. |
| `BookingEffects.BooksInformally` | src/reservations/reservations.service.ts:56-118 | An informal booking is refused a table or dishes, and costs nothing. |
| `BookingEffects.BooksDeposit` | src/reservations/reservations.service.ts:56-118 | A deposit books an AVAILABLE table of the restaurant for the configured amount, without dishes. |
| `BookingEffects.BooksPreorder` | src/reservations/reservations.service.ts:56-118 | A pre-order does what placing its dishes as a take-away order does, and adds a reservation of that order asking half its total, rounded down. |
| `BookingEffects.Confirms` | src/reservations/reservations.service.ts:155-193 | Only a waiting reservation is confirmed; a paid one makes its table RESERVED. |
| `BookingEffects.Ends` | src/reservations/reservations.service.ts:374-404 | Only a reservation not yet seated is ended; its table is freed exactly if RESERVED. |
| `BookingEffects.SeatRefused` | src/reservations/reservations.service.ts:210-228 | Seating answers NotFound on a reservation not owned and BadRequest on one not confirmed. |
| `BookingEffects.SeatsPreorder` | src/reservations/reservations.service.ts:230-270 | In a reachable state seating a pre-order occupies its table and moves its order there. |
| `BookingEffects.SeatsInformal` | src/reservations/reservations.service.ts:332-362 | Seating does what asking for an order at the table does, and links the order answered unless another reservation has it. |
| `BookingEffects.SeatsDeposit` | src/reservations/reservations.service.ts:272-330 | Seating a deposit does the same at its own table, and then what a fixed discount of the deposit does if the order's prices times quantities are positive. |
| `OrderLife.MenuEditsKeepOrders` | src/menu/menu-items.service.ts:83-102 | Writing or removing a menu item, modifiers included, alters no order. |
| `OrderLife.DiscountAccepted` | src/orders/orders.service.ts:472-487 | On an editable order a fixed discount is accepted exactly when it is at most the subtotal, a percentage one exactly when the undiscounted part of the subtotal does not reach minus one cent. |
| `Counterexamples.PercentageCanBeRefused` | src/orders/orders.service.ts:476-487 | Two calls reach an order of which even a discount of zero percent is refused. |
| `OrderLife.DiscountWithoutClamp` | src/orders/orders.service.ts:459-522 | With no negative unit price a percentage discount is never refused, and right after an accepted discount the total is subtotal + tax - discount without the clamp. |
| `OrderLife.AtMostFiveChanges` | src/orders/order-status.ts:4-16 | No run, from any state, changes an order's status more than five times. |
| `OrderLife.ChangesRaiseRank` | src/orders/order-status.ts:4-16 | The status changes of an order in a run are at most the rank it gained. |
| `OrderLife.FrozenForever` | src/orders/orders.service.ts:283-287 | Once past PENDING an order stays past it, with the same lines, totals and discount in every later state. |
| `OrderLines.RemovesExactly` | src/orders/orders.service.ts:369-392 | In a reachable state removing a line from an editable order succeeds exactly when the order has it, drops that line and no other, and leaves every other order alone. |
| `OrderLines.RequantifiesExactly` | src/orders/orders.service.ts:324-367 | In a reachable state changing a quantity succeeds exactly when the order has the line, and rewrites that line's quantity and total only. |
| `OrderLines.AddThenRemove` | src/orders/orders.service.ts:276-392 | In a reachable state removing the line just added gives back every row exactly, money included; only the line id stays used. |
| `OrderLines.QuantityThenBack` | src/orders/orders.service.ts:324-367 | In a reachable state setting a quantity and setting it back gives back the whole state. |
| `OrderLines.AlwaysDistinctLines` | src/orders/orders.service.ts:108-165 | In every run the lines of an order have distinct ids, all handed out before, and positive quantities. |
| `Basics.RoundRatioIsNearest` | src/orders/orders.service.ts:433-434 | The rounded ratio is the nearest integer, halves upward. |
| `Evolution.StepEvolves` | src/orders/order-status.ts:4-16 | Every call in every state: order status follows the transition table and money moves only on editable orders; payments keep their identity; a session changes once, when closed with its payments' sum; reservations follow their life cycle. |
| `StockLedger.StockReflectsLedger` | src/inventory/inventory.service.ts:71-104 | In every run stock on hand is the ledger balance plus the deepest shortfall the ledger ever had, never negative and never below the balance, and a menu item has at most one stock item. |
| `StockLedger.CheckoutTakesStock` | src/payments/payments.service.ts:214-246 | A checkout that takes a payment lowers each stock item by what its order sold of the linked menu item, stopping at zero, lowers the ledger by the full amount, and moves nothing else. |
| `StockLedger.LedgerConservation` | src/payments/payments.service.ts:214-246 | In every run an item's ledger balance is its opening quantity, plus every delta adjusted, minus what the checkouts that took a payment sold of the menu item it was linked to at the time. |
| `StockLedger.StepStock` | src/inventory/inventory.service.ts:84-103 | Every call keeps quantities equal to the replay of their logs and loses no log entry. |
| `Inventory.ReplayReflects` | src/inventory/inventory.service.ts:84-103 | Replaying any log with the clamp gives the balance plus the deepest shortfall over all prefixes, which is attained. |
| `Inventory.DecrementAllTotals` | src/payments/payments.service.ts:214-246 | The loop over the lines takes the total sold off each linked item once, stopping at zero, and touches no other. |
| `Inventory.SoldIsSum` | src/payments/payments.service.ts:214-246 | What the lines sell of a menu item is the sum of the quantities of its lines. |
| `Inventory.DecrementIgnoresOrder` | src/payments/payments.service.ts:214-246 | Processing the lines in another order gives the same quantities. |
| `Inventory.DecrementLineIsAdjust` | src/payments/payments.service.ts:220-240 | With unique links, decrementing for a line is one adjustment of the linked item, or nothing when there is none. |
| `UniqueNames.AlwaysDistinct` | src/zones/zones.service.ts:112-161 | In every run table names, and zone codes, are pairwise distinct within a restaurant up to case and white space, and codes are single words. |
| `UniqueNames.CreateZoneDistinct` | src/zones/zones.service.ts:17-31 | The computed code of a new zone clashes with no code of the restaurant, given the raw unique column. |
| `UniqueNames.UpdateZoneDistinct` | src/zones/zones.service.ts:145-161 | Updating a zone keeps codes distinct. |
| `UniqueNames.SuggestionRefused` | src/tables/tables.service.ts:111-127 | Creating a table under a suggested name is refused exactly when a table of the restaurant has that one word as its name, in any case and spacing. |
| `ZoneNaming.ComputeZoneCode` | src/zones/zones.service.ts:112-143 | The code is the prefix and the least number from 1 on not in use, found within one try more than there are used codes. |
| `ZoneNaming.PrefixStartsCode` | src/zones/zones.service.ts:116-124 | The prefix is empty for a name whose first word is "piso" in any case, and otherwise up to three capitals of that word. |
| `ZoneNaming.Pigeonhole` | src/zones/zones.service.ts:138-142 | If all candidates below n are taken, at least n - 1 codes are in use: the search ends. |
| `ZoneNaming.FreshCodeIsNew` | src/zones/zones.service.ts:126-142 | A fresh code differs, up to case, from every existing one; between "Piso" zones and others this needs the raw unique column. |
| `ZoneNaming.GetNextTableName` | src/zones/zones.service.ts:67-82 | The suffix is the least number from 1 on whose two-digit name is free, or 100. |
| `ZoneNaming.SuffixIsPadded` | src/zones/zones.service.ts:72-78 | The scan collects number k from a name exactly when the name is the code followed by k in two digits. |
| `ZoneNaming.SuggestionIsFree` | src/zones/zones.service.ts:79-82 | The suggestion is an existing name exactly when 01 to 99 are all taken and so is 100. |
| `Counterexamples.SuggestionCanExist` | src/zones/zones.service.ts:55-83 | A run that creates a hundred tables after which the suggestion is an existing name. |
| `Counterexamples.SuggestionCanBeRefused` | src/tables/tables.service.ts:111-127 | A run after which the suggested name is refused. |
| `ZoneNaming.SuggestionCanClash` | src/zones/zones.service.ts:73-82 | For any code with a capital letter, a table with the first name in small letters leaves that name suggested though creation treats the two as the same. |
| `ZoneNaming.SuggestionClash` | src/common/utils/normalize-name.ts:10-12 | Exactly the one-word names spelling the suggestion in some case normalize to the same key. |
| `Decimal.PrintIsInjective` | src/zones/zones.service.ts:139-142 | Different numbers print differently. |
| `Decimal.ParsePad2` | src/zones/zones.service.ts:75-82 | Padding undoes parsing on two-digit texts. |
| `Decimal.Pad2Parse` | src/zones/zones.service.ts:75-82 | Parsing undoes padding below 100. |
| `Names.NormalizeJoinsWords` | src/common/utils/normalize-name.ts:10-12 | The normalized name is the lower-cased words joined by single spaces. |
| `Names.SameKey` | src/common/utils/normalize-name.ts:1-12 | Two names normalize alike exactly when they have the same words up to case. |
| `Names.Idempotent` | src/common/utils/normalize-name.ts:10-12 | Normalizing twice is normalizing once. |
| `Modifiers.ResolveSelections` | src/menu/modifiers.service.ts:142-230 | The table building, the checks in the source's order, the counting and the pricing give the specified outcome, refusal reason included. |
| `Modifiers.AcceptsExactlyValid` | src/menu/modifiers.service.ts:147-210 | Accepted are exactly the lists of distinct ids of available modifiers of the item with every group's count within its rule. |
| `Modifiers.RefusesWithReason` | src/menu/modifiers.service.ts:147-210 | With unique keys a refusal names the first thing wrong: a repeated id, else the first id not on offer or not available, else the first group whose rule the choice breaks, with the bound it breaks. |
| `Modifiers.AcceptedSelections` | src/menu/modifiers.service.ts:212-230 | On acceptance the selections are a permutation of the ids in group-then-modifier order and the delta is the sum over the chosen modifiers. |
| `Modifiers.OrderDoesNotMatter` | src/menu/modifiers.service.ts:147-230 | Permuting the ids changes neither acceptance nor the result. |
| `Modifiers.Orderable` | src/menu/modifiers.service.ts:192-210 | Some id list is accepted exactly when every required group allows, and has available, at least max(minSelect, 1) modifiers. |
| `Modifiers.BuildTable` | src/menu/modifiers.service.ts:160-168 | The nested loops build the lookup table of all offers, a later entry winning. |
| `Modifiers.AddGroup` | src/menu/modifiers.service.ts:165-167 | The inner loop adds one group's offers to the table, a later entry winning. |
| `Modifiers.CountByGroup` | src/menu/modifiers.service.ts:184-188 | The map holds each group's number of chosen ids, absent meaning zero. |
| `Csv.RoundTrip` | src/common/utils/csv.ts:6-48 | A reader of the format of RFC 4180 section 2, with CRLF as record separator, recovers every table with non-empty records from its print, whatever the fields hold. |
| `Csv.EscapedWhenNeeded` | src/common/utils/csv.ts:14-18 | A field is printed as it is exactly when it has no quote, comma or line break. |
| `Csv.ToCsv` | src/common/utils/csv.ts:31-48 | The printed text reads back as the headers given, or the first row's keys, followed by each row's text under each header, empty where the row has none; without headers it is empty. |
| `Csv.PrintingIsInjective` | src/common/utils/csv.ts:31-48 | With the same columns, equal prints come from rows showing equal cells. |
| `Cors.AcceptsExactlyInstances` | src/common/cors.ts:34-44 | The compiled expression accepts an origin exactly when some substitution of non-empty dot-free runs for the stars produces it. |
| `Cors.CompileReadsBack` | src/common/cors.ts:38-43 | Reading the compiled text as an expression gives the pattern's own characters, each star as a run of non-dots. |
| `Cors.AcceptsIsInstance` | src/common/cors.ts:34-45 | Exact and wildcard matchers both accept exactly the instances, which have as many dots as the pattern. |
| `Cors.AllowsExactlyInstances` | src/common/cors.ts:19-55 | An absent or empty origin always passes; with an allow-list any other one passes exactly when it is an instance of a listed pattern, without one exactly outside production. |
| `Reports.GetDailySummaryRange` | src/reports/reports.service.ts:130-176 | One entry per day with a sale, strictly ascending, each with that day's total, count and rounded average. |
| `Reports.GetTicketCountByDay` | src/reports/reports.service.ts:209-242 | One entry per day with a sale, strictly ascending, each with that day's number of sales. |
| `Reports.SummaryConservesSales` | src/reports/reports.service.ts:94-176 | The range summary adds up, in money and in number, to the closed tickets of the same range in any order. |
| `Reports.CountsAgree` | src/reports/reports.service.ts:209-242 | Entry by entry the range summary has the days and counts of the ticket counts. |
| `Reports.AverageIsNearest` | src/reports/reports.service.ts:160-174 | Each average is within half a cent of total over count. |
| `Reports.EntryIsDailySummary` | src/reports/reports.service.ts:14-33 | An entry equals the single-day summary exactly when the range has no sale in the day's last millisecond. |
| `Reports.DailySummaryIs` | src/reports/reports.service.ts:14-33 | The single-day summary sums, counts and averages to the nearest cent the restaurant's completed and confirmed orders from the day's midnight to just before its last millisecond. |
| `Reports.RangeEntryIs` | src/reports/reports.service.ts:130-176 | An entry of the range summary sums, counts and averages the completed and confirmed orders of its day in the range. |
| `Reports.ReportedDays` | src/reports/reports.service.ts:146-158 | A day has an entry exactly when such an order falls on it in the range. |
| `Reports.SalesExactly` | src/reports/reports.service.ts:5-8 | The sales of an interval are exactly the restaurant's completed and confirmed orders created in it, each once. |
| `Reports.LastMillisecondIsMissed` | src/reports/reports.service.ts:244-249 | One sale in a last millisecond makes an entry of the range summary and an empty single-day summary. |
| `Reports.DayWithinRange` | src/reports/reports.service.ts:244-249 | A day's part of a range is its single-day range plus its last millisecond. |
| `PointOfSale.ServeAll` | src/app.module.ts:32-46 | Serving any list of calls with the service classes on a fresh database ends in the rows of the run of the transition system, so every result about runs is one about the services. |
| `PointOfSale.Server.Serve` | src/app.module.ts:32-46 | Any public call, dispatched to its service, leaves the rows and gives the answer of one step. |
| `Services.OrdersService.Create` | src/orders/orders.service.ts:61-186 | Leaves the rows and gives the answer of `Orders.Create`: reopening an occupied table's newest active order, or one new DRAFT order with priced lines and its table OCCUPIED. |
| `Services.OrdersService.PriceLines` | src/orders/orders.service.ts:108-138 | The loop prices every line in order, or refuses the whole list. |
| `Services.OrdersService.AddItem` | src/orders/orders.service.ts:276-322 | Appends one priced line to an editable order and recomputes its money, or changes nothing. |
| `Services.OrdersService.UpdateItemQuantity` | src/orders/orders.service.ts:324-367 | Reprices one line of an editable order for another quantity. |
| `Services.OrdersService.RemoveItem` | src/orders/orders.service.ts:369-392 | Drops one line of an editable order and recomputes its money, leaving the discount. |
| `Services.OrdersService.ConfirmOrder` | src/orders/orders.service.ts:394-416 | Moves a non-empty order to PENDING if the transition table allows it. |
| `Services.OrdersService.UpdateStatus` | src/orders/orders.service.ts:232-257 | Moves an order along the transition table and nowhere else. |
| `Services.OrdersService.MarkConfirmed` | src/orders/orders.service.ts:265-274 | Confirms an order if it can be confirmed, silently otherwise. |
| `Services.OrdersService.RecalculateTotals` | src/orders/orders.service.ts:418-457 | Rewrites one order's subtotal, tax and total from its lines and stored discount. |
| `Services.OrdersService.ApplyDiscount` | src/orders/orders.service.ts:459-522 | Stores a resolved discount no larger than the subtotal and recomputes, or changes nothing. |
| `Services.PaymentsService.CreateIntent` | src/payments/payments.service.ts:42-83 | Upserts the payment of the gateway's reference with the order's total. |
| `Services.PaymentsService.Checkout` | src/payments/payments.service.ts:87-187 | Confirms the order, frees its table, records the payment on the open session and takes the lines off stock, or changes nothing; it relies on the unique column of prisma/schema.prisma:420, kept by every run. |
| `Services.PaymentsService.DecrementInventoryForOrder` | src/payments/payments.service.ts:214-246 | The loop of adjustments equals the specified decrement line by line. |
| `Services.PaymentsService.HandleWebhook` | src/payments/payments.service.ts:248-262 | Dispatches the two known event kinds and ignores others. |
| `Services.PaymentsService.OnPaymentSucceeded` | src/payments/payments.service.ts:264-279 | Marks the payment SUCCEEDED with the event and confirms its order, unless there is nothing to process. |
| `Services.PaymentsService.OnPaymentFailed` | src/payments/payments.service.ts:281-294 | Marks the payment FAILED with the event, unless there is nothing to process. |
| `Services.PaymentsService.FindPaymentForEvent` | src/payments/payments.service.ts:300-316 | The event's payment, or nothing when unknown or its last event again. |
| `Services.CashRegisterService.OpenSession` | src/cash-register/cash-register.service.ts:16-32 | Opens a session unless the restaurant has one open. |
| `Services.CashRegisterService.CloseSession` | src/cash-register/cash-register.service.ts:34-65 | Closes the open session with the sum of its payments and the counted difference. |
| `Services.CashRegisterService.GetSessionSummary` | src/cash-register/cash-register.service.ts:67-103 | Answers for the restaurant's own sessions only, with the sum and number of the session's payments and, for exactly the tenders where it is positive, the sum of those made by that tender. |
| `Services.InventoryService.Create` | src/inventory/inventory.service.ts:30-41 | Adds a stock item, refusing a missing menu item or a second link to one. |
| `Services.InventoryService.Adjust` | src/inventory/inventory.service.ts:71-104 | Logs the full delta and clamps the quantity at zero. |
| `Services.ReservationsService.Create` | src/reservations/reservations.service.ts:56-118 | Books an informal, deposit or pre-order reservation; a pre-order places a take-away order and asks half its total. |
| `Services.ReservationsService.Confirm` | src/reservations/reservations.service.ts:155-208 | Confirms a waiting reservation and reserves the table of a paid one. |
| `Services.ReservationsService.Seat` | src/reservations/reservations.service.ts:210-228 | Seats a confirmed reservation in the way of its type. |
| `Services.ReservationsService.SeatWithPreorder` | src/reservations/reservations.service.ts:230-270 | Occupies the table, marks the reservation and moves its order to the table. |
| `Services.ReservationsService.SeatDepositOnly` | src/reservations/reservations.service.ts:272-330 | Opens the table's order, links it, and only then tries the deposit as a discount. |
| `Services.ReservationsService.SeatAt` | src/reservations/reservations.service.ts:332-362 | Opens or reopens the table's order and links it; a second link to one order is refused. |
| `Services.ReservationsService.Terminate` | src/reservations/reservations.service.ts:374-404 | Ends a waiting or confirmed reservation and frees its table if that is still RESERVED. |
| `Services.MenuItemsService.Put` | src/menu/menu-items.service.ts:35-87 | Writes a menu item with its modifier groups, new or of the restaurant. |
| `Services.MenuItemsService.Remove` | src/menu/menu-items.service.ts:88-102 | Removes a menu item without order history and nulls the link of its stock item. |
| `Services.TablesService.Create` | src/tables/tables.service.ts:38-47 | Adds an AVAILABLE table unless its normalized name is taken. |
| `Services.TablesService.Update` | src/tables/tables.service.ts:49-62 | Renames an AVAILABLE table unless another has the normalized name. |
| `Services.TablesService.UpdateLayout` | src/tables/tables.service.ts:64-87 | Moves a table to a zone of its own restaurant, out of its zone on an explicit null, or leaves it. |
| `Services.TablesService.Remove` | src/tables/tables.service.ts:89-93 | Deletes an AVAILABLE table. |
| `Services.ZonesService.Create` | src/zones/zones.service.ts:17-31 | Adds a zone under the computed code, refused by the unique column if that is taken. |
| `Services.ZonesService.Update` | src/zones/zones.service.ts:40-53 | Renames or recodes a zone unless the code is taken up to case. |
| `Services.ZonesService.GetNextTableName` | src/zones/zones.service.ts:55-83 | Suggests the least free two-digit name over all tables of the restaurant. |
| `Services.ZonesService.Remove` | src/zones/zones.service.ts:85-110 | Deletes a zone and its tables if all of them are AVAILABLE. |
| `Store.Database.DeleteTables` | prisma/migrations/20260713023034_add_table_entity/migration.sql:27 | Deleting tables nulls the references of orders and reservations to them. |

## Left out

- Interleavings inside one call: reads happen outside transactions in the source; here each call is one step.
- Services.PaymentsService.DecrementInventoryForOrder: does not model a failing adjustment, which the source logs and skips.
- Services.PaymentsService.CreateIntent: the reference the gateway answers with is a parameter; its client secret and currency are not modelled.
- Services.PaymentsService.HandleWebhook: signature verification and the raw event are not modelled; an event is an id, a kind and a reference.
- Services.ReservationsService.Create: does not model customer data, dates, time zones or tolerance.
- Services.TablesService.Update: does not model the capacity column, which no other call reads.
- Services.TablesService.UpdateLayout: does not model positions, sizes and shapes, which no other call reads.
- Reports.GetDailySummaryRange: days are numbers; the calendar text of a day, and the engine's own sort, are replaced by the number and an insertion sort.
- Names.NormalizeJoinsWords: case mapping covers the ASCII letters; other letters are left as they are.
- Row ids: positions or counters stand for random identifiers; "latest" means created last. A foreign key guarantees the rows that by-id updates name.
- Timestamps, order numbers, notes, users, audit entries, realtime events, currency and pagination.
- Menu editing is one arbitrary write of a menu item with its modifier groups, and its removal; the single create and update calls of items and groups are not told apart.
- Inventory `update` overwrites the quantity outside the ledger, and `remove` deletes an item with its log: the reflection result is about items that only `adjust` and checkout write.
- PROCESSING and REFUNDED payments, which no code writes.
- Billing, users, restaurants, categories, payment breakdown and best-seller reports, low-stock alerts, the tenant-guard extension, authentication and all controllers: only easy members.
