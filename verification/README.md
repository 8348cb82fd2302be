# Order service: a verified model

The Go order service keeps customer orders in PostgreSQL, moves them through a six-status lifecycle, announces the
moves on a message broker, and charges carts through a checkout that spans a basket service, a payment service and its
own store. It is a rewrite of a Java service that is still in the repository. This project models both in Dafny and
proves what the code keeps true over whole runs, with every other party free to fail at every step.

The model is layered, and each layer is tied to the one below it:

- `money.dfy`, `orders.dfy`: rounding, line amounts, and the order entity with its in-place recalculation.
- `lifecycle.dfy`: what an accepted edit (status update or cancel) does to an order, as functions, and every
  uninterrupted run of edits: the language of announced events, shapes, time stamps, progress.
- `queries.dfy`, `tables.dfy`, `inserts.dfy`, `store.dfy`: the two tables, transactions that may fail at the begin, at any
  statement or at the commit, what is read back, and the batched listing.
- `service.dfy`, `responses.dfy`, `store_runs.dfy`: the service methods over the store, what a client is shown, and what
  holds of the tables in every state that calls lead to.
- `answers.dfy`, `asked.dfy`, `history.dfy`: told from the rows, the requests and the calls themselves: which answer a refused
  request gets, exactly which creations commit, and that what was asked for and done is what rows, events and responses say.
- `checkout.dfy`: the checkout handler and the normalisation of payment outcomes.
- `interleaving.dfy`: one state machine in which every read, every write and every call to another party is a step of its
  own, and steps of any number of checkouts, creates and edits interleave. `races.dfy` says exactly when the missing lock
  loses an update or leaves a terminal status; `clocks.dfy` keeps the order of the stamps; `announcements.dfy` makes each
  announcement a step of its own after its commit, and `event_language.dfy` says exactly when the events still make a word of
  the language; `checkout_runs.dfy` keeps the ledger of captures `checkout_events.dfy` the one amount of a checkout, and `cart_runs.dfy` ties it to the cart that was read and the
  reply that confirmed it;
  `refinement.dfy` shows that the methods of the layers above, run without interruption, are runs of this machine, and
  `table_runs.dfy` carries whole interleaved runs out on the tables.
- `precision.dfy`: rows that keep stamps at a lower precision than the clock's hold what a run of the lifecycle makes of
  readings at that precision.
- `java_service.dfy`, `rewrite.dfy`: the Java service and its agreement with the Go one.
- `publisher.dfy`: who closes which broker connection. `sanitizer.dfy`: JSON escaping by five replacements.

Conventions. A decimal is a `real`: every decimal is one, and rounding is written out (half away from zero, two places).
A time is a number of nanoseconds, 0 being Go's zero time. The clock reads nanoseconds and the columns keep microseconds; the
tables here keep a stamp as it is, and `precision.dfy` shows what changes when they do not: the run is one with rounded readings.
Clock readings, generated ids, database faults, broker answers and replies of other services are parameters, quantified over in
every lemma. Generated ids are never `uuid.Nil`; a clash with a stored id is a failed insert. An overflowing column is a failed
statement, and a failed commit changes nothing. Loops and field assignments of the Go code are loops and field assignments here;
the specification functions beside them are what the lemmas talk about.

Where the documentation and the code disagree the code is followed: `docs/api/README.md` names statuses CONFIRMED and
DELIVERED that neither service has.

What turned out not to hold, with the exact condition in each case:

- Nothing is lost of concurrent edits: false (`Races.StaleWriteLosesCancel`), true exactly when every commit was written over a
  row that still admits it with the fields edits keep unchanged (`Races.NothingLostExactly`).
- The events of an order are a word of the language: false of those its commits call for
  (`EventLanguage.StaleCommitLeavesTheLanguage`) and, with every commit harmless, of those attempted
  (`EventLanguage.AnnouncedOutOfTurn`); true of the former exactly when each was due when its edit was committed
  (`EventLanguage.CommitsCallForALifeWordExactly`) and of the latter exactly when each was announced when it was due
  (`EventLanguage.AttemptsAreALifeWordExactly`). Announcements made birth first and in order of commit reduce the second
  to the first (`EventLanguage.InTurnIsALifeWordExactly`).
- COMPLETED and CANCELLED are never left: false when requests interleave; a step leaves them exactly when it commits an edit
  that asks for another status, which no harmless commit does (`Races.LeavesTerminalExactly`), and a run never leaves
  them exactly when no later commit to the order asks for another (`Races.KeepsStatusExactly`).
- A CANCELLED order has a cancellation time: false (`Lifecycle.CancelledWithoutTime`), true exactly when a cancel was among the
  edits accepted (`Lifecycle.CancelTimeExactly`).
- `total_amount` stays the sum of `total_price`: false (`StoreRuns.HalfCentsUnbalance`); true after calls exactly when none was
  accepted or rounding the prices first leaves the sum of the lines as it is (`Inserts.ColumnsAgreeExactly`). In every state
  of the tables, both columns and the total read are one value exactly under the latter (`StoreRuns.EveryStoreIsBalancedExactly`).
- Escaped text is a legal JSON string body: exactly when the input has no control character other than the three escaped ones
  (`Sanitizer.LegalExactlyWhenPrintable`).
- The two services accept the same requests: false (`Rewrite.ValidatorsDiffer`), true of a creation exactly when, its quantities
  and prices being fine, both find a blank text in it or neither does (`Rewrite.ValidatorsAgreeExactly`).
- Their events have the same payload: but for the amount, exactly when Java's leaves no string null and no default to be filled
  in (`Rewrite.SamePayloadExactly`), which an accepted edit achieves exactly when its request says it all
  (`Rewrite.EditIsExplicitExactly`).
- The two services give an order the same currency: unless the request names the empty one (`Rewrite.CurrenciesDiffer`).
- The reset after a failed send closes no connection but the one it failed on: false (`Publishers.LateResetHappens`), true
  exactly when the publisher still holds that connection or none (`Publishers.ResetClosesItsOwnExactly`).

## Model

| member | source | states |
|---|---|---|
| Money.RoundingCharacterised | go/internal/order/model.go:121-123 | a value is the rounding of x if and only if it is whole cents, within half a cent of x, and on a tie not nearer to zero |
| Money.RoundFixesExactly | go/internal/order/model.go:121-123 | rounding gives whole cents, and leaves unchanged exactly the whole-cent amounts |
| Money.LineCharacterised | go/internal/order/model.go:121-123 | a value is the line amount if and only if it is whole cents, within half a cent of price times quantity, and on a tie not nearer to zero |
| Money.CentsOfProduct | go/internal/order/store.go:93-111 | rounding a line after multiplying and rounding its price before differ by at most half the quantity in cents |
| Money.StoredLineClose | go/internal/order/store.go:93-111 | a line recomputed from its stored price is within floor(quantity/2) cents of the line first computed |
| Money.StoredLineWorstCase | go/internal/order/store.go:93-111 | that bound is reached at every quantity |
| Orders.OrderEntity.NewOrder | go/internal/order/model.go:144-159 | a new order is PENDING, empty, in USD unless a currency is given, created and updated at one reading |
| Orders.OrderEntity.RecalculateTotals | go/internal/order/model.go:161-168 | every subtotal is its rounded line and the total their rounded sum; nothing else changes |
| Orders.OrderEntity.AddItem | go/internal/order/model.go:170-178 | the item, given an id if it has none and the order's id, is appended and all totals recalculated |
| Orders.OrderEntity.UpdateTimestampsOnPersist | go/internal/order/model.go:180-185 | the creation time is set once, the update time always |
| Orders.FinalRoundingIsIdentity | go/internal/order/model.go:161-168 | the last rounding of the total changes nothing: a sum of rounded lines is whole cents |
| Orders.TotalIgnoresOrder | go/internal/order/model.go:161-168 | permuting the items never changes the total |
| Orders.TotalNearExact | src/main/java/com/shoppingcart/order/entity/OrderItem.java:50-52 | the Go total is within half a cent a line of the exact sum of price times quantity |
| Orders.TotalExactOnCents | src/main/java/com/shoppingcart/order/entity/OrderItem.java:50-52 | on whole-cent prices the Go total is the exact sum |
| Orders.RecalculatedIsFixpoint | go/internal/order/model.go:161-168 | recalculating twice is recalculating once |
| Orders.AddedItem | go/internal/order/model.go:170-178 | AddItem keeps the items before, and appends the one given with an id, the order's id and its line amount |
| Orders.AddItemAgreesWithRecalculation | go/internal/order/model.go:161-178 | an order built by one AddItem per item is the order filled at once and recalculated once |
| Lifecycle.RunKeepsOrder | go/internal/order/service.go:110-260 | no run of edits changes id, customer, currency, items, total, address or creation time |
| Lifecycle.RunAttemptsALifeWord | go/internal/order/service.go:130-251 | every run attempts a word of created (cancelled* or paid (cancelled* or shipped completed?)), and each of the four stamps is set exactly when its event is in the word |
| Lifecycle.EveryLifeWordIsAttempted | go/internal/order/service.go:110-260 | conversely every word of that language is attempted by some run of every new order, with a clock that never goes back |
| Lifecycle.CancelledWithoutTime | go/internal/order/service.go:120-139 | a status update can leave a new order CANCELLED with no cancellation time and no event |
| Lifecycle.CancelTimeExactly | go/internal/order/service.go:223-231 | the cancellation time is set if and only if a cancel was among the edits accepted |
| Lifecycle.EventsAreFaithful | go/internal/order/service.go:146-156 | every event of a run carries the order's id, and a paid event the total and currency of its creation, however late |
| Lifecycle.RunIsShaped | go/internal/order/service.go:120-139 | in every run the paid, shipped, completed and cancelled times, tracking, carrier and reason are present as the status demands |
| Lifecycle.RunOrdersTimes | go/internal/order/service.go:126-139 | with a clock that never goes back, created, paid, shipped, completed, cancelled and updated times are in order |
| Lifecycle.AcceptedEditsProgress | go/internal/order/model.go:42-57 | an accepted status update raises the rank of the status, an accepted cancel never lowers it |
| Lifecycle.AtMostFourUpdates | go/internal/order/model.go:42-57 | an order takes at most four accepted status updates in any run |
| Lifecycle.TerminalIsNeverLeft | go/internal/order/model.go:42-57 | COMPLETED and CANCELLED are never left at any later point of an uninterrupted run |
| Lifecycle.ReplayIsRun | go/internal/order/service.go:110-260 | a chain of accepted edits is a run in which nothing is refused |
| Lifecycle.RunIsReplay | go/internal/order/service.go:110-260 | what any run leaves is what the chain of its accepted edits produces |
| Queries.SortedIsUnique | go/internal/order/store.go:416-438 | ORDER BY with a tie broken by id admits one answer only |
| Queries.FilterKeepsOrder | go/internal/order/store.go:432-438 | picking some rows of a sorted scan keeps it sorted |
| DbTables.RowRoundTrip | go/internal/order/store.go:287-371 | scanning the row written for an order gives back every field, the total to the cent |
| DbTables.ReadAfterAnyWrite | go/internal/order/store.go:200-246 | after an UPDATE a read sees the columns written, with the items that were there and their total |
| DbTables.EditReadsBack | go/internal/order/store.go:200-246 | reading, editing, writing and reading again returns exactly the edited order |
| DbTables.WriteLeavesOthers | go/internal/order/store.go:440-482 | an UPDATE changes how no other order reads |
| DbTables.ReadsAfterWrite | go/internal/order/store.go:200-246 | over the whole table an UPDATE changes exactly one read |
| DbTables.StoreRunsTheLifecycle | go/internal/order/store.go:200-246 | after any calls the rows hold what the edits make of the order first read: no column is forgotten |
| DbTables.TotalNeverDrifts | go/internal/order/store.go:120-132 | every Get returns the same total and items across any calls in between |
| Inserts.InsertedRows | go/internal/order/store.go:53-118 | a committed creation leaves the old rows, one order row and one row for each item, as written |
| Inserts.InsertKeepsForeignKey | go/internal/order/testdata/V1__init_schema.sql:1-31 | after a creation every item row still points at an order row |
| Inserts.ReadBack | go/internal/order/store.go:93-132 | a created order reads back as it was, with its stored items sorted by id and their total |
| Inserts.InsertLeavesOthers | go/internal/order/store.go:53-118 | a creation changes how no other order reads |
| Inserts.ReadBackTotalClose | go/internal/order/store.go:93-132 | the total read back is within the sum of floor(quantity/2) cents of the total computed before storing |
| Inserts.ReadBackTotalExact | go/internal/order/store.go:93-132 | the two are equal when every price is whole cents |
| Inserts.ReadBackBoundIsReached | go/internal/order/store.go:93-132 | the bound is the best possible, for all quantities at once |
| Inserts.ColumnsAgreeAtCreation | go/internal/order/store.go:68-111 | at creation total_amount is the sum of the total_price column, whatever the prices |
| Inserts.ColumnsAgreeIff | go/internal/order/store.go:200-246 | after any calls the columns still agree if and only if nothing was accepted or the total read equals total_amount |
| Inserts.ColumnsAgreeExactly | go/internal/order/store.go:93-111 | after a creation and any calls the columns agree if and only if nothing was accepted or rounding the prices first keeps the sum of the lines |
| Inserts.ColumnsAgreeOnCents | go/internal/order/store.go:53-118 | orders created with whole-cent prices keep the columns equal through every run |
| Store.PostgresStore.Create | go/internal/order/store.go:53-118 | commits exactly when every insert and the commit succeed, and then leaves the whole order; otherwise leaves the tables as they were |
| Store.PostgresStore.InsertItems | go/internal/order/store.go:88-111 | the loop stages every item row, filling ids, order ids and subtotals in place, or fails exactly when one insert does |
| Store.PostgresStore.InsertItem | go/internal/order/store.go:88-111 | one turn completes one item in place and stages its row, or reports the failure |
| Store.PostgresStore.ListItems | go/internal/order/store.go:260-285 | the items of one order by id |
| Store.PostgresStore.Get | go/internal/order/store.go:120-132 | the order its row and item rows describe, recalculated; not found exactly when there is no row |
| Store.PostgresStore.Update | go/internal/order/store.go:200-246 | stamps and writes all columns of an existing row, or changes nothing; the error tells which |
| Store.PostgresStore.ListItemsByOrderIDs | go/internal/order/store.go:166-198 | one scan grouped through a map gives each order what scanning for it alone gives |
| Store.PostgresStore.GroupRows | go/internal/order/store.go:166-198 | after the loop each slice is the scan filtered to its order, in scan order |
| Store.PostgresStore.ListByCustomer | go/internal/order/store.go:134-164 | the customer's orders in query order, each with its items as the second query finds them later |
| Store.GroupedScan | go/internal/order/store.go:432-438 | filtering the many-order scan to one order is the one-order query |
| Store.ListingIsExact | go/internal/order/store.go:416-423 | a listing has exactly the customer's orders, once each, by creation time and then id |
| Services.Service.CreateOrder | go/internal/order/service.go:38-100 | succeeds exactly on valid requests whose transaction commits; then the order is stored whole and announced once, else nothing changes |
| Services.Service.BuildOrder | go/internal/order/service.go:43-70 | the order in memory is the requested items, subtotalled, with their total |
| Services.Service.Validate | go/internal/order/handler.go:96-134 | accepts exactly requests with customer, items, positive quantities and prices and no blank field |
| Services.SpacesExactly | go/internal/order/handler.go:96-134 | the characters trimmed are the 25 of the Unicode property White_Space |
| Services.Service.UpdateOrderStatus | go/internal/order/service.go:110-211 | answers the edited order or the first error met; writes and announces exactly when it accepts, and nothing else |
| Services.Service.CancelOrder | go/internal/order/service.go:213-260 | the same for cancels, which only SHIPPED and COMPLETED refuse |
| Services.ToEventItems | go/internal/order/service.go:286-297 | the event's items are the order's, in order |
| Services.ServiceTakesLifecycleSteps | go/internal/order/service.go:110-260 | on a readable order the service accepts, writes and announces exactly what the lifecycle's calls do |
| Services.CreatedIsNew | go/internal/order/service.go:43-76 | a valid request makes a PENDING order whose total is that of the requested lines, with no stamp set |
| Services.CreateThenGet | go/internal/order/service.go:74-99 | the total returned by CreateOrder against the Get after any calls: within the bound, equal on whole-cent prices |
| Services.LifeOfAnOrder | go/internal/order/service.go:72-251 | from the request through any calls over the store: the events are a word of the language, the row has its status's shape, stamps match events |
| Answers.TransitionsAreTheTable | go/internal/order/model.go:42-57 | a change of status is allowed if and only if it is one of seven pairs |
| Answers.UpdateAnswers | go/internal/order/service.go:110-143 | from the request and the rows alone: exactly when an update is answered Invalid, NotFound, InvalidTransition (naming the status a Get still shows and the one asked for) or StoreFailure, and that a refusal changes nothing |
| Answers.CancelAnswers | go/internal/order/service.go:213-235 | the same for cancels: NotFound, CancelNotAllowed naming the status a Get still shows, or StoreFailure |
| Asked.CreatedAsAsked | go/internal/order/service.go:43-70 | the order created has the customer, currency, address and lines asked for, their total, and nothing else set |
| Asked.RowsAsAsked | go/internal/order/store.go:68-111 | a committed creation adds one order row and one item row a line, column by column as asked for, and leaves every other row |
| Asked.ReadAsStored | go/internal/order/store.go:260-371 | what Get returns has each column of the order's row and of exactly its item rows in the field of the same name |
| Asked.CreatedEventAsAsked | go/internal/order/service.go:286-297 | item k of the created event has the product id, name, quantity and price of line k of the request, and the event its customer, currency, address and total |
| Asked.InsertableExactly | go/internal/order/testdata/V1__init_schema.sql:1-31 | a creation commits if and only if the database takes all its statements, no id is taken, and texts, quantities and amounts fit their columns |
| History.RowSaysWhatWasDone | go/internal/order/store.go:200-246 | after a creation and any calls the row holds what was asked for and what the accepted calls have left: last status, each stamp, tracking, carrier, reason and update time |
| History.ShownSaysWhatWasDone | go/internal/order/handler.go:280-321 | so does what a client is shown, every line included, each stamp being shown exactly when its event was attempted |
| History.EventAsAsked | go/internal/order/service.go:145-251 | the event of an accepted edit carries the strings of its request, the reading it was made at and, unless a date is given, five days to deliver |
| Responses.ToOrderResponse | go/internal/order/handler.go:280-321 | the response is the order with every amount rounded |
| Responses.ShownTotalAddsUp | go/internal/order/handler.go:280-321 | the total shown is the sum of the subtotals shown, and the order's own |
| Responses.ReadOrderShowsItsSums | go/internal/order/handler.go:280-321 | for an order read back every line shown also multiplies out |
| StoreRuns.EveryItemHasItsOrder | go/internal/order/store.go:53-118 | in every reachable state, whatever failed, item rows point at orders and stored prices are whole cents |
| StoreRuns.EveryStoreIsBalancedExactly | go/internal/order/store.go:53-246 | in every reachable state an order's total_amount, its sum of total_price and the total read are equal if and only if rounding first keeps the lines of the request that created it |
| StoreRuns.EveryStoreIsBalanced | go/internal/order/store.go:53-246 | so with whole-cent requests they are equal for every order in every reachable state |
| StoreRuns.HalfCentsUnbalance | go/internal/order/store.go:93-111 | one line of two units at half a cent and one accepted update make total_amount differ from the sum of total_price |
| StoreRuns.Serve | go/internal/order/service.go:38-260 | every call of the service leaves the tables as the runs of this module say |
| StoreRuns.ItemsNeverChange | go/internal/order/store.go:440-482 | the items of a stored order are the same in every later state |
| StoreRuns.TwoQueriesReadOneOrder | go/internal/order/store.go:120-164 | whatever is served between the two queries of Get or of a listing, the order put together is the one stored at the first |
| StoreRuns.EveryShownOrderAddsUp | go/internal/order/handler.go:280-321 | in every reachable state, whatever the prices, what a client is shown of a stored order adds up |
| Checkouts.ProcessPayment | go/internal/checkout/client.go:115-149 | a payment counts as paid exactly on a 2xx reply with status COMPLETED; otherwise a reason is always given |
| Checkouts.ConfirmsExactly | go/internal/checkout/client.go:144-144 | a reply confirms a payment if and only if it is 200 to 299 and says COMPLETED |
| Checkouts.ReasonsGiven | go/internal/checkout/client.go:138-147 | the reason shown is the service's own, or the code and status it answered, or that it did not answer |
| Checkouts.CartOrderAsAsked | go/internal/checkout/handler.go:82-86 | the order made of a cart has its lines and no other, and comes to its rounded prices times its quantities |
| Checkouts.Handler.Checkout | go/internal/checkout/handler.go:54-113 | for all answers of basket, store and payment service: the status code, tables, requests, clears, events and response; the rows hold the cart's lines; charge, both events, stored total and response are what the cart comes to; only a 2xx COMPLETED reply leads past 402, to a PAID row and a cleared cart |
| Checkouts.Handler.Refused | go/internal/checkout/handler.go:55-81 | the checks before creation, and the code each returns |
| Checkouts.Handler.BuildRequest | go/internal/checkout/handler.go:82-85 | the create request is the cart with each price rounded to cents |
| Checkouts.Handler.Charge | go/internal/checkout/handler.go:92-112 | one request for the stored order's total; 402 unless confirmed, then 200 or 500 by the update alone |
| Checkouts.Handler.Settle | go/internal/checkout/handler.go:104-111 | the cart is cleared exactly when the PAID row commits |
| Checkouts.CartOrderReadsBack | go/internal/checkout/handler.go:82-86 | a cart's order reads back with the very total that was computed, prices being whole cents |
| Checkouts.MarkOutcome | go/internal/order/service.go:148-155 | the PAID write of a new order is accepted, announces the created amount and reads back as PAID for it |
| Interleaving.WriteBackIsEdited | go/internal/order/store.go:200-246 | writing a stale snapshot puts the snapshot's own chain, one edit longer, in the row: fields never mix |
| Interleaving.DoKeepsDerived | go/internal/order/service.go:110-143 | every step of every request keeps rows and snapshots chains of accepted edits of the order as created |
| Interleaving.InterleavedRows | go/internal/order/service.go:213-235 | in every interleaving a stored row is a chain of accepted edits, a subsequence of those committed, with the identity and items of creation |
| Interleaving.InterleavedSnapshots | go/internal/order/service.go:110-143 | so is every snapshot an edit or a checkout holds between its read and its write |
| Interleaving.BornForever | go/internal/order/store.go:53-118 | an order once created is never created again or removed |
| Races.HarmlessExactly | go/internal/order/service.go:120-139 | an edit makes the same of two rows that differ in age if and only if both admit it and agree on paid and shipped time, tracking and carrier |
| Races.NothingLostExactly | go/internal/order/service.go:110-143 | at every point of a run all committed edits show in the row, in order, if and only if every commit was harmless |
| Races.StaleWriteLosesCancel | go/internal/order/service.go:110-143 | from any state with a PENDING order, a payment read before a cancel and written after it erases the committed cancel |
| Races.CancelIsLostSomewhere | go/internal/order/service.go:110-143 | every valid request starts such a run: five steps end in a PAID order whose committed cancel left no trace |
| Races.LeavesTerminalExactly | go/internal/order/model.go:42-57 | a step takes an order out of COMPLETED or CANCELLED if and only if it commits to it an edit that asks for another status, and such a commit is never harmless |
| Races.KeepsStatusExactly | go/internal/order/model.go:42-57 | in every interleaving an order keeps its status to the end of the run if and only if every later commit to it asks for that status |
| Races.HarmlessRunsKeepTerminal | go/internal/order/model.go:42-57 | while every commit to it is harmless, an order never leaves COMPLETED or CANCELLED in any interleaving |
| Clocks.InterleavedTimes | go/internal/order/service.go:126-141 | while each request's own readings are in order, and not before what it has read, stamps stay in order under every interleaving, readings of different requests crossing freely |
| Clocks.OneClockOrdersReadings | go/internal/order/model.go:180-185 | one clock that never goes back, read before the commit and after the read of each request, puts its readings in that order |
| Clocks.InterleavedTimesOfOneClock | go/internal/order/service.go:126-141 | so stamps stay in order in every interleaving under one such clock |
| Announcements.AnnouncementsFollowCommits | go/internal/order/service.go:72-91 | in every interleaving an event attempted belongs to one creation or commit made before it and is the event that calls for: of a creation with the customer, currency, address, items and, within the storage bound, total stored; of an edit with the order's id and, for a payment, the total and currency of creation |
| Announcements.AnnouncedExactlyOnce | go/internal/order/service.go:145-201 | nothing is announced twice, and once nothing is owed every creation and every commit that calls for an event has been announced |
| EventLanguage.CommitsCallForALifeWordExactly | go/internal/order/service.go:130-251 | in every interleaving the events an order's commits call for are a word of the language if and only if each was due when committed |
| EventLanguage.HarmlessCommitsCallForALifeWord | go/internal/order/service.go:130-251 | they are whenever every commit to the order is harmless |
| EventLanguage.StaleCommitLeavesTheLanguage | go/internal/order/service.go:110-143 | every valid request starts a run whose commits call for created, cancelled, paid |
| EventLanguage.AttemptsAreALifeWordExactly | go/internal/order/service.go:72-251 | in every interleaving the events attempted of an order, once there is one, are a word of the language if and only if each was announced when due after the last |
| EventLanguage.InTurnIsALifeWord | go/internal/order/service.go:72-251 | commits made when due and announced birth first and in order of commit give a word of the language at every point |
| EventLanguage.InTurnIsALifeWordExactly | go/internal/order/service.go:72-251 | once nothing is owed, events announced in turn are a word of the language if and only if their commits were made when due |
| EventLanguage.AnnouncedOutOfTurn | go/internal/order/service.go:72-91 | every valid request starts a run with harmless commits whose payment is announced before its creation |
| CheckoutEvents.OneAmountPerCheckout | go/internal/checkout/handler.go:82-112 | in every interleaving a checkout's amount is the total stored, every charge and capture of its order, the total announced of its creation and the amount announced of its payment |
| Precision.StoredRunIsARun | go/internal/order/testdata/V1__init_schema.sql:1-31 | rows that keep stamps at any lower precision go through a run of the lifecycle, with the same types of events |
| Precision.StoredTimesOrdered | go/internal/order/model.go:180-185 | with a clock that never goes back their stamps are in order and present as the status demands |
| Precision.MicrosecondRows | go/internal/order/testdata/V1__init_schema.sql:1-31 | both hold of columns of microseconds |
| CartRuns.EveryCheckoutChargesItsCart | go/internal/checkout/handler.go:71-92 | in every interleaving a checkout's order has the lines of a cart it read, and every charge and capture is of what that cart comes to |
| CartRuns.AnswerDecides | go/internal/checkout/handler.go:92-103 | a reply moves a waiting checkout on, and is a capture, if and only if it is 2xx and COMPLETED; else it ends in 402 |
| CartRuns.CapturesWereCompleted | go/internal/checkout/client.go:144-144 | in every interleaving each capture came from a 2xx COMPLETED reply to its own checkout |
| CheckoutRuns.EveryCheckoutIsOk | go/internal/checkout/handler.go:54-113 | the invariant of all checkouts in flight: ledger entries and flights correspond one to one, no order is shared, amounts are the stored totals |
| CheckoutRuns.ChargedTotalIsStored | go/internal/checkout/handler.go:82-92 | the amount charged is the total of the row stored, for every cart |
| CheckoutRuns.CartClearedOnlyAfterPaid | go/internal/checkout/handler.go:92-111 | a cart is cleared at most once, and only after a capture of that order's total and a committed PAID update |
| CheckoutRuns.OneRequestPerOrder | go/internal/checkout/handler.go:92-92 | no order is sent to payment twice or captured twice |
| CheckoutRuns.CodeTellsWhatHappened | go/internal/checkout/handler.go:54-113 | the status code determines which of created, charged, confirmed, marked and cleared happened |
| CheckoutRuns.CapturesAreTotals | go/internal/checkout/client.go:144-144 | the captures add up to the stored totals of the captured orders |
| CheckoutRuns.CapturedMoneyIsConserved | go/internal/checkout/handler.go:86-112 | in every run of anything: captures plus PAID orders without one equal PAID orders plus captured orders that are not PAID |
| CheckoutRuns.CheckoutsConserveMoney | go/internal/checkout/handler.go:86-112 | in runs of checkouts alone: captures equal the totals of PAID orders plus those of captured orders still PENDING |
| Refinement.EditIsARun | go/internal/order/service.go:110-260 | an uninterrupted update or cancel, whatever fails, is a read step and a write step of the machine |
| Refinement.CreateIsAStep | go/internal/order/service.go:38-100 | CreateOrder is a step of the machine |
| Refinement.StaleWriteOnTables | go/internal/order/store.go:200-246 | a write of any snapshot in hand does to the tables what the machine does to its orders, and keeps every order's total read, sum of total_price and the choice of total_amount between them |
| TableRuns.RunsAreOnTables | go/internal/order/store.go:53-246 | at every point of every interleaved run on the tables Get returns of each order what the machine holds |
| TableRuns.InterleavedBalanceExactly | go/internal/order/store.go:53-246 | in every interleaving, stale writes included, total_amount, the sum of total_price and the total read are one value if and only if rounding first keeps the lines the order was created with |
| Refinement.CheckoutIsARun | go/internal/checkout/handler.go:54-113 | an uninterrupted checkout is a run of the machine with the same code, tables, requests and captures |
| JavaService.OrderService.CreateOrder | src/main/java/com/shoppingcart/order/service/OrderService.java:36-74 | stores and publishes the order with the exact, unrounded total; a failed save, publish or commit stores nothing, the last after the event is out |
| JavaService.OrderService.AddItems | src/main/java/com/shoppingcart/order/service/OrderService.java:43-53 | the running total is the sum of the exact line amounts |
| JavaService.OrderService.UpdateOrderStatus | src/main/java/com/shoppingcart/order/service/OrderService.java:97-134 | throws exactly when the order is missing, the transition not valid or the transaction fails, and then stores nothing; else stores the changed order, its event having gone out before |
| JavaService.OrderService.CancelOrder | src/main/java/com/shoppingcart/order/service/OrderService.java:140-158 | the same for cancels, which only SHIPPED and COMPLETED refuse |
| JavaService.SentWithoutCommitExactly | src/main/java/com/shoppingcart/order/service/OrderService.java:36-74 | an event goes out for a change that is not stored exactly when the commit is what fails |
| Rewrite.JavaAsAsked | src/main/java/com/shoppingcart/order/service/OrderEventPublisher.java:30-60 | the order and the created event Java makes carry the request, line by line |
| Rewrite.EditKeepsTwins | src/main/java/com/shoppingcart/order/service/OrderService.java:97-174 | on matching orders both services refuse an edit or neither, and the results match |
| Rewrite.StoredTotalsClose | src/main/java/com/shoppingcart/order/entity/OrderItem.java:50-52 | the totals the two databases hold differ by at most half a cent a unit and another half, by nothing on whole-cent prices |
| Rewrite.ReturnedTotalsClose | src/main/java/com/shoppingcart/order/service/OrderService.java:43-53 | the totals returned for one request are within half a cent a line, equal on whole-cent prices |
| Rewrite.ServicesAgree | src/main/java/com/shoppingcart/order/service/OrderService.java:97-174 | for every sequence of creates, updates and cancels over any orders, of texts blank to both or neither: same acceptances, same events in the same order with the same payload but for amounts, nulls and defaults, same statuses, lines, stamps, tracking and reasons, totals within the bound, all amounts equal on whole-cent prices |
| Rewrite.PayloadsAgree | src/main/java/com/shoppingcart/order/service/OrderEventPublisher.java:30-148 | if every request names every string its events carry, the payloads are the same too, but for amounts, and wholly so on whole-cent prices |
| Rewrite.SamePayloadExactly | src/main/java/com/shoppingcart/order/service/OrderEventPublisher.java:30-148 | matching events have the same payload but for the amount if and only if Java's has no null string, no empty currency and no empty canceller |
| Rewrite.EditIsExplicitExactly | src/main/java/com/shoppingcart/order/dto/UpdateOrderStatusRequest.java:7-16 | an accepted edit publishes such an event, or none, if and only if its request names every string the event carries |
| Rewrite.ValidatorsAgreeExactly | src/main/java/com/shoppingcart/order/dto/CreateOrderRequest.java:11-31 | the two validators answer a request alike if and only if, its quantities and prices being fine, both find a blank text in it or neither does |
| Rewrite.ValidatorsDiffer | go/internal/order/handler.go:96-134 | only Java accepts a customer named by a no-break space, only Go one named by a control character |
| Rewrite.GoTakes | go/internal/order/service.go:38-260 | a call of the Go service is the step the agreement is stated over |
| Rewrite.JavaTakes | src/main/java/com/shoppingcart/order/service/OrderService.java:36-158 | so is a call of the Java service |
| Rewrite.CurrenciesDiffer | src/main/java/com/shoppingcart/order/service/OrderService.java:41-41 | the currencies agree unless the request names the empty one |
| Publishers.RabbitPublisher.EnsureChannel | go/internal/events/publisher.go:299-338 | which channel is returned, and what was dialled, opened and closed on the way, for all broker answers |
| Publishers.ChannelExactly | go/internal/events/publisher.go:299-338 | a channel is returned if and only if the one held is alive or, with a URI, closing, dialling, opening and declaring all succeed; and exactly when a connection is dialled |
| Publishers.RabbitPublisher.CloseLocked | go/internal/events/publisher.go:346-362 | channel and connection are closed once each if held and forgotten even when closing fails |
| Publishers.RabbitPublisher.Publish | go/internal/events/publisher.go:266-291 | succeeds exactly when a channel was got and the send succeeds; a failed send closes the link |
| Publishers.EnsureKeepsOwned | go/internal/events/publisher.go:299-338 | fields are set together or not at all, and every connection but the one held was closed exactly once |
| Publishers.ConnectionsBalance | go/internal/events/publisher.go:266-362 | over every interleaving, connections dialled minus Close calls is one if one is held and zero otherwise, none closed twice |
| Publishers.ShutLeavesNothingOpen | go/internal/events/publisher.go:293-297 | after Close every connection ever dialled has been closed |
| Publishers.ResetClosesItsOwnExactly | go/internal/events/publisher.go:286-289 | in every state reached, the reset after a failed send closes no connection but its own if and only if that one or none is held; its own is closed by then in any case |
| Publishers.LateResetClosesAnother | go/internal/events/publisher.go:286-289 | from any state with two publishes about to send on the held channel, four steps leave the second to reset a connection dialled since |
| Publishers.LateResetHappens | go/internal/events/publisher.go:286-289 | a run from the start does so, and the connection closed is one a third publish is about to use |
| Sanitizer.CodeUnitsAreCharacters | src/main/java/com/shoppingcart/order/config/InputSanitizer.java:104-114 | the code units replaced and put in are those of the characters written in the source |
| Sanitizer.SanitizedEscapesEach | src/main/java/com/shoppingcart/order/config/InputSanitizer.java:104-114 | five successive whole-string replacements are one map over the characters |
| Sanitizer.SanitizeRoundTrip | src/main/java/com/shoppingcart/order/config/InputSanitizer.java:104-114 | unescaping by section 7 of RFC 8259 restores every input |
| Sanitizer.SanitizeIsInjective | src/main/java/com/shoppingcart/order/config/InputSanitizer.java:104-114 | no two inputs, null included, have one output |
| Sanitizer.LegalExactlyWhenPrintable | src/main/java/com/shoppingcart/order/config/InputSanitizer.java:104-114 | the output is a legal string body if and only if the input has no other control character |

## Left out

- Services.Service.CreateOrder: the broker's answer to an announcement is not in the contract, because the service only logs it.
- Store.PostgresStore.Create: the two clock reads of UpdateTimestampsOnPersist are one reading here and in Update, as the creation
  time of an order that is stored is already set.
- DbTables.RowRoundTrip: stamps are stored as they are read from the clock; that columns keep microseconds only is the subject of
  `precision.dfy`, over runs of one order.
- DbTables.EditReadsBack: the same.
- Store.PostgresStore.Get: its two queries see one state of the tables; StoreRuns.TwoQueriesReadOneOrder says why that is enough.
- Rewrite.ServicesAgree: compares creation times not at all, because Java stamps them when saving and Go when building the order; and
  takes a date of delivery to be the same whichever time zone it is reckoned in.
- Rewrite.ValidatorsAgreeExactly: what the validation library's @NotBlank refuses is taken from its documentation: what trim() leaves
  empty.
- JavaService.OrderService.UpdateOrderStatus: when the persistence context flushes is not modelled; a failed statement shows as a
  failed save or a failed commit.
- Publishers.RabbitPublisher.Publish: message payloads and delivery beyond the send call are not modelled.
- Items are values: the in-place change of a slice element is an assignment to the element of the order's sequence, so two orders
  sharing one backing slice is not captured.
- The float-to-decimal conversion of cart prices: the price is any decimal.
- Decimal parsing, JSON, HTTP routing, headers, health checks, configuration, server start-up and shut-down: plumbing.
- Token verification and rate limiting: their work is done in libraries that are not part of this model.
- HTML escaping and script removal in InputSanitizer: regular expressions and a library utility.
- A lone surrogate counts as an ordinary character of a JSON string body; section 8.2 of RFC 8259 leaves its meaning open.
- Envelope ids, correlation ids and topic names of events.
