# WashFlow: a verified model of the booking core

WashFlow is a multi-tenant booking backend for car washes. This project models the parts of it whose
correctness spans several calls, and proves what they promise together:

- **Booking.** Orders reserve a work post and an employee, with a buffer around each slot; payments are
  taken against orders; both can carry an idempotency key. The state is a class of tables
  (`BookingStore.Store`), each committed transaction is one method, and each method is proved equal to a
  transition function on values (`Booking`). What every run of those transitions keeps is proved in
  `BookingSafety`; which requests each call accepts, and what the accepted row contains, is proved in
  `BookingLaws` in terms of the rows alone.
- **The availability grid.** The batched computation with its three cursor loops (`Availability`) is
  compared with the point checks made when booking (`GridAgreement`), and its advertised capacity with
  the bookings that succeed (`Capacity`). The daily shift that a booking needs is computed by a walk over
  an arbitrary timezone-offset function (`WorkingWindow`).
- **Subscriptions.** Printing a subscription as Paddle items and reading a webhook back (`Billing`,
  `BillingRoundTrip`), the limits derived from tier and addons (`Plans`, `Subscriptions`), what becomes of
  those limits when calls interleave (`LimitRaces`), and the per-tenant cap on live rows (`ResourceCap`).
- **Client merge, CSV export and the tenant-scoped client** (`ClientMerge`, `CsvExport`, `BatchFetch`,
  `TenantScope`), and the bounded retry around reservations (`Retry`).

`dafny verify dfyconfig.toml` checks the whole project.

## How to read it

Where the program updates rows step by step the model has a class whose methods update fields, with loops
where the program has loops. Each such method is tied by its `ensures` to a function of the old state, and
the lemmas about that function say what the program promises. `RowsAfter...`, `After...` and `...Outcome`
are those functions. Histories (`Booking.History`) record what happened and are read by no step.

Time is an integer number of milliseconds and money an integer number of cents. An id is its place in the
total order by which queries sort ids. A branch timezone is an arbitrary function from UTC minutes to whole
minutes of offset. The clock of a store only moves forward. SHA-256 is taken to be injective, so the
fingerprint of a request is its normalised payload.

## What turned out not to hold in general

Each of these is kept as the code has it, with the exact condition under which the promise holds.

- The grid fetches the orders of posts for the working hours without widening the range by the buffer
  (employees are fetched with it), so a flag near opening or closing time can be set although the point
  check refuses the slot. The flags are right for every order table exactly when the buffered slot lies
  inside the working hours: `GridAgreement.PostFlagAgreesIffInside`.
- The grid of a branch that exists but is not active can still advertise posts, none of which can be
  booked. It does so exactly when the branch has no configured profile, the query names no employee and
  some post is free in the slot: `Capacity.InactiveBranchAdvertisesIff`, with a concrete branch in
  `Capacity.ClosedBranchAdvertises` and `Capacity.ClosedBranchRefuses`.
- `subscription.created` updates the tenant named in the payload but looks the subscription up again by
  its Paddle id, which is not unique in the schema. Whatever the lookup finds and whatever the items, the
  limits of all tenants stay right exactly when no other tenant holds that id before the call:
  `Subscriptions.CreatedKeepsCoherenceIff`.
- Handlers and addon calls write the tier, write addons, read both and store limits in separately committed
  statements, so overlapping calls on one tenant can store old limits. Whatever they write, the limits are
  right at rest exactly when nothing was written, or the last of those statements that is not a read stores
  limits, from reads later than the last write of the tier and the last write of an addon:
  `LimitRaces.CoherentAtRestIff`, with a
  concrete race in `LimitRaces.OverlappingCallsGoStale`.
- Webhook addons are written in no fixed order; the resulting table is determined exactly when the payload
  does not write one resource in two ways: `Billing.OrderIndependentIff`.
- Printing a subscription and reading it back are inverse exactly when every price id in use reads back as
  its own key: `BillingRoundTrip.RoundTripsIff`. Injective price maps with no plan id among the addon ids
  suffice: `BillingRoundTrip.InjectivePricesRoundTrip`. `BillingRoundTrip.SharedIdIsMisread` is a
  configuration under which a Starter subscription is read back as Business.
- Merging clients consults deleted vehicles of the target too, so an order can be moved from a live vehicle
  to a deleted one: `ClientMerge.LiveVehicleLostIff`, with a concrete merge in `ClientMerge.LiveVehicleIsLost`.
- Update data that names another tenant hands rows over to it: `TenantScope.UpdateKeepsOthersIff`.
- A printed table reads back exactly when every record has a field; a reader that ignores a line break at
  the very end of the file also loses a last record of one empty field: `CsvExport.CsvRoundTripIff`,
  `CsvExport.CsvRoundTripWithLastBreakIff`.
- Comments in the code call transaction clients plain, outside tenant and soft-delete filtering; the merge,
  opened from the tenant client, relies on the filtering (its `_includeDeleted` marker). The model follows
  the code.

## Model

| member | source | states |
|---|---|---|
| BookingSafety.EveryRunIsSound | src/modules/orders/orders.service.ts:65-539 | After any run of create, reschedule, status, confirmation-timeout, delete, restore, payment, clean-up, settings and clock steps from empty tables: no double booking, no overpayment, one creation per key and day, one event per creation |
| BookingSafety.StepKeepsSound | src/modules/orders/orders.service.ts:310-539 | Every single step keeps all four invariants, whatever the state they hold in |
| BookingSafety.ReservingKeepsSpacing | src/modules/scheduling/scheduling.service.ts:315-359 | Giving an order resources that are free in the buffered slot keeps every two active orders on one post or employee apart by the buffer in force at the later reservation |
| BookingSafety.CreateKeepsSpacing | src/modules/orders/orders.service.ts:174-214 | Creating an order, automatic or named resources, double-books nothing |
| BookingSafety.RescheduleKeepsSpacing | src/modules/orders/orders.service.ts:368-390 | Moving an order, itself not counted as a conflict, double-books nothing |
| BookingSafety.RestoreKeepsSpacing | src/modules/orders/orders.service.ts:490-539 | Restoring a deleted order double-books nothing: a live one is reserved again with today's buffer, a finished one blocks nothing |
| BookingSafety.StatusKeepsSpacing | src/modules/orders/orders.service.ts:417-455 | No status change can bring an order back into conflict |
| BookingSafety.DeleteKeepsSpacing | src/modules/orders/orders.service.ts:481-488 | Deleting an order keeps the spacing of the others |
| BookingSafety.TimeoutKeepsSpacing | src/modules/jobs/processors/booking-confirmation.processor.ts:25-47 | The job that cancels unconfirmed orders, deleted ones included, brings no order into conflict |
| BookingSafety.TerminalMeansExcluded | src/modules/orders/types/order.types.ts:3-10 | The statuses without exits are exactly those that overlap queries leave out |
| BookingSafety.StepKeepsNoOverpayment | src/modules/payments/payments.service.ts:63-127 | On every order with a positive total the payments never sum to more than the total, over payments, replays, moves and status changes |
| BookingSafety.PayKeepsNoOverpayment | src/modules/payments/payments.service.ts:97-122 | A payment is added only within the remaining amount |
| BookingSafety.StepKeepsDiscipline | src/modules/idempotency/idempotency.service.ts:69-111 | Two resources created under one key were claimed at least 24 hours apart; every committed key row carries the id of the resource made under it |
| BookingSafety.CleanupKeepsDiscipline | src/modules/idempotency/idempotency.repository.ts:113-117 | Deleting expired keys never frees a key before its day is over |
| BookingSafety.RepeatNeverCreates | src/modules/idempotency/idempotency.service.ts:121-149 | Within a day of a creation, a claim under its key yields that resource for the same request and a conflict for any other |
| BookingSafety.RetriedBooking | src/modules/orders/orders.service.ts:101-121 | Whatever happens in the day after a keyed booking, repeating it changes nothing and is answered with the original order while that order is visible; another request under the key is refused |
| BookingSafety.RetriedPayment | src/modules/payments/payments.service.ts:71-89 | Whatever happens in the day after a keyed payment, repeating it charges nothing and is answered with the original payment; another request under the key is refused |
| BookingSafety.SameServicesSameRequest | src/modules/orders/orders.service.ts:86-97 | Two keyed orders count as one request exactly when they differ at most in the order of their services (and an empty source) |
| BookingSafety.StepKeepsEvents | src/modules/orders/orders.service.ts:223-236 | Creation events and order rows correspond one to one, payment events and payments likewise; replays emit none |
| BookingLaws.CreatedIff | src/modules/orders/orders.service.ts:65-187 | An order is created exactly for a request in scope with services, not in the past, on an allowed day, for an owned vehicle, distinct active services and an open branch, under no key or a free one, when the named or some post and employee can be reserved |
| BookingLaws.CreatedOrder | src/modules/orders/orders.service.ts:137-214 | The created row: it lasts the running total of the durations and costs the running total of the prices of its services, in any listing order; status by source; the reserved post and employee; every other field |
| BookingLaws.SumsPermute | src/modules/orders/orders.service.ts:587-590 | Total price and duration do not depend on the order of the services |
| BookingLaws.SumsAdd | src/modules/orders/orders.service.ts:587-590 | The totals of two lists together are the sums of their totals |
| BookingLaws.ReplayedIff | src/modules/orders/orders.service.ts:101-121 | A replay answers exactly a live, complete key row of the same route, kind, actor and payload whose order is still in the branch |
| BookingLaws.KeyedRefusals | src/modules/orders/orders.service.ts:73-121 | Scope and key form are refused first, then what the key row says decides between conflict and missing order; only a free key reaches the rest |
| BookingLaws.FreshRefusals | src/modules/orders/orders.service.ts:122-187 | Of a fresh request the first applicable reason is reported; a busy named post is a conflict, everything else a bad request |
| BookingLaws.NamedPostAnswer | src/modules/orders/orders.service.ts:692-730 | A named post is reserved exactly when its row and branch are open and every live order on it keeps the buffer's distance; open but not clear is a conflict |
| BookingLaws.AutomaticPostAnswer | src/modules/orders/orders.service.ts:732-758 | Without a name the least open and clear post, and a bad request exactly when there is none |
| BookingLaws.NamedEmployeeAnswer | src/modules/orders/employee-eligibility.util.ts:76-114 | A named employee is assigned exactly when an active worker of an open branch, on shift at every instant, with every live order at the buffer's distance |
| BookingLaws.AutomaticEmployeeAnswer | src/modules/orders/employee-eligibility.util.ts:63-114 | Without a name nobody exactly where no active profile has a shift, else the least fit and clear worker |
| BookingLaws.BufferFallsBack | src/common/utils/booking-settings.util.ts:30-48 | The branch's own buffer, else the tenant's, else ten minutes; other branches' settings do not matter |
| BookingLaws.MovedIff | src/modules/orders/orders.service.ts:317-381 | A move is accepted exactly for a reachable booked order with a stored duration, into the future of an open branch on an allowed day, when the named (else stored) post and employee are open, fit and clear without the order itself |
| BookingLaws.MovedOrder | src/modules/orders/orders.service.ts:368-390 | The moved row has the asked start, the stored duration and the named (else stored) post and employee; nothing else changes |
| BookingLaws.MoveRefusals | src/modules/orders/orders.service.ts:320-381 | Not found exactly when the row is out of reach; a conflict only for an open post that is not clear |
| BookingLaws.StatusIsReachedFrom | src/modules/orders/types/order.types.ts:3-10 | From which statuses each status can be reached |
| BookingLaws.StatusAnswer | src/modules/orders/orders.service.ts:427-451 | A reachable order takes exactly an allowed status, and only its status changes |
| BookingLaws.TimeoutAnswer | src/modules/jobs/processors/booking-confirmation.processor.ts:25-41 | The timeout cancels its order exactly when pending and changes nothing else |
| BookingLaws.RestoredIff | src/modules/orders/orders.service.ts:490-539 | A deleted order comes back unchanged exactly when finished, or when its branch is open and its stored post and employee are free in its slot |
| BookingLaws.RestoreRefusals | src/modules/orders/orders.service.ts:494-529 | Not found exactly when out of reach; a conflict only for an open stored post that is not clear |
| BookingLaws.RestoreUndoesDelete | src/modules/orders/orders.service.ts:481-539 | Deleting hides an order; restoring it with nothing in between gives the tables back |
| BookingLaws.PaidIff | src/modules/payments/payments.service.ts:91-122 | A fresh payment is accepted exactly on an unfinished order and, where the total is positive, as long as the payments do not exceed it |
| BookingLaws.SettlingIsAccepted | src/modules/payments/payments.service.ts:102-113 | Paying exactly what is left is accepted and leaves the order paid in full |
| BookingLaws.PaymentReplayedIff | src/modules/payments/payments.service.ts:71-89 | A replay answers exactly a live, complete key row of the same payment that is still recorded |
| BookingLaws.PayRefusals | src/modules/payments/payments.service.ts:47-113 | The first applicable reason for refusing a payment |
| BookingLaws.SameOrderIdentityIff | src/modules/orders/orders.service.ts:75-98 | Two orders under one key are one request exactly for the same actor, origin and payload, up to the order of services and an empty source |
| BookingLaws.SamePaymentIdentityIff | src/modules/payments/payments.service.ts:47-62 | Likewise for two payments, up to an omitted status |
| BookingLaws.FreshAgainIff | src/modules/idempotency/idempotency.service.ts:69-90 | A key can be claimed afresh exactly when every creation under it is at least 24 hours old |
| BookingLaws.CleanupIsInvisible | src/modules/idempotency/idempotency.repository.ts:113-117 | Clean-up removes exactly the expired rows, and no later claim can tell |
| BookingLaws.StepKeepsTheRest | src/modules/orders/orders.service.ts:65-539 | Every step writes at most its own order, never its owner, vehicle, branch or price; payments are only added, and only by paying |
| BookingLaws.OutcomesAreStored | src/modules/orders/orders.service.ts:189-219 | An accepted creation, payment or move stores exactly its row; a refused or replayed one changes nothing |
| OrderIntent.FingerprintIff | src/modules/orders/orders.service.ts:86-96 | The normalised intents of two requests are equal exactly when the requests agree up to the order of serviceIds |
| OrderIntent.SortSorts | src/modules/orders/orders.service.ts:93 | Normalising lists the same services, ascending |
| OrderIntent.SortedIsUnique | src/modules/orders/orders.service.ts:93 | One multiset of services has one ascending listing |
| Reservation.NoneCountedIffFree | src/modules/scheduling/scheduling.repository.ts:54-73 | The overlap count is zero exactly when no active order of the post touches the buffered slot |
| Reservation.ReservedWasFree | src/modules/orders/orders.service.ts:640-669 | Whatever is reserved was usable and free, buffer included, and an assigned employee eligible |
| BookingStore.Store.ReserveSlot | src/modules/scheduling/scheduling.service.ts:315-359 | Conflicts exactly when the post is not free in the buffered slot |
| BookingStore.Store.ResolveWorkPost | src/modules/orders/orders.service.ts:671-759 | The named post if usable and free, else its error; without a name the least free post of an active branch, though posts are tried one by one |
| BookingStore.Store.PostsById | src/modules/orders/orders.service.ts:732-735 | The usable posts of the branch, each once, ascending |
| BookingStore.FirstFreeIsLeast | src/modules/orders/orders.service.ts:737-754 | The first free post of the ascending list is the least free one |
| BookingStore.Store.ReserveEmployee | src/modules/orders/employee-eligibility.util.ts:58-114 | The named employee if eligible; otherwise the least eligible one, or nobody when the branch has no configured profile |
| BookingStore.Store.ReserveResources | src/modules/orders/orders.service.ts:640-669 | Post before employee; a stored null stays unassigned |
| BookingStore.Store.CheckRequest | src/modules/orders/orders.service.ts:122-167 | Accepts exactly the requests with services, not in the past, with an owned vehicle, resolvable services, an active branch and an allowed day |
| BookingStore.Store.PrepareOrder | src/modules/orders/orders.service.ts:122-213 | The order that a fresh request inserts, or the first reason to refuse it |
| BookingStore.Store.ClaimAndPrepare | src/modules/orders/orders.service.ts:101-187 | Outcome of the transaction before its insert; only the key row has been touched |
| BookingStore.ClaimedThenSaved | src/modules/idempotency/idempotency.service.ts:82-111 | Claiming a key and then saving the result leaves the receipt of the creation |
| BookingStore.Store.Create | src/modules/orders/orders.service.ts:65-239 | The whole call: result and all tables equal the atomic step, a refusal rolls the claimed key back, a replay adds no order and no event |
| BookingStore.Store.ReplayPublicBooking | src/modules/orders/orders.service.ts:241-269 | Answers a live key exactly as repeating the booking would, and never books |
| BookingStore.Store.PrepareMove | src/modules/orders/orders.service.ts:319-381 | The moved order, or why it cannot move; stored duration and unnamed resources are kept |
| BookingStore.Store.Reschedule | src/modules/orders/orders.service.ts:310-415 | Updates exactly the moved order; a refusal changes nothing |
| BookingStore.Store.UpdateStatus | src/modules/orders/orders.service.ts:417-455 | Stores the status exactly when the transition is allowed |
| BookingStore.Store.ConfirmationTimeout | src/modules/jobs/processors/booking-confirmation.processor.ts:25-47 | Cancels the order exactly when it is pending, deleted or not, and counts what it changed |
| BookingStore.Store.SoftDelete | src/modules/orders/orders.service.ts:481-488 | Marks a visible order deleted and changes nothing else |
| BookingStore.Store.RestoreOrder | src/modules/orders/orders.service.ts:490-539 | Un-deletes exactly when the stored resources can be reserved again, or the order is finished |
| BookingStore.Store.SumPaid | src/modules/payments/payments.service.ts:97-105 | The fold adds up exactly the payments of the order |
| BookingStore.Store.PayTx | src/modules/payments/payments.service.ts:66-126 | The callback under the order lock: replay, terminal refusal, upper bound, insert and saved key |
| BookingStore.Store.CreatePayment | src/modules/payments/payments.service.ts:39-141 | The whole call: result and all tables equal the atomic step; a refusal rolls the key back; only a new payment emits an event |
| BookingStore.Store.CleanExpired | src/modules/idempotency/idempotency.repository.ts:113-117 | Removes exactly the key rows that expired before now |
| Idempotency.KeyTable.AcquireRequestLock | src/modules/idempotency/idempotency.repository.ts:48-72 | Takes the key exactly when no live row holds it, replacing an expired row in the same write |
| Idempotency.KeyTable.ClaimRequest | src/modules/idempotency/idempotency.service.ts:69-100 | Outcome and rows do not depend on whether the first read missed a concurrent winner |
| Idempotency.KeyTable.ReadRequest | src/modules/idempotency/idempotency.service.ts:55-67 | What a claim would answer on a live row, without claiming |
| Idempotency.KeyTable.SaveRequest | src/modules/idempotency/idempotency.service.ts:102-111 | Completes the row with the resource id and keeps its expiry |
| Idempotency.ClaimedIsHeld | src/modules/idempotency/idempotency.service.ts:82-100 | From a fresh claim until it is saved, every claim under the key conflicts for exactly 24 hours; other keys are untouched |
| Idempotency.ValidKeyIff | src/modules/idempotency/idempotency.service.ts:37-45 | Well-formed keys: 1 to 128 letters, digits, underscores, hyphens, colons and dots |
| Idempotency.IdentityAnswer | src/modules/idempotency/idempotency.service.ts:33-53 | No key, no identity; a malformed key is refused; any other request is identified by key, route, kind, actor and payload |
| Capacity.AdvertisedCapacityIsExact | src/modules/scheduling/scheduling.service.ts:244-306 | For a slot whose buffered interval lies in the working hours, the n-th of any series of automatic create calls for it (any clients, vehicles, services and origins, without keys or under distinct free ones) succeeds exactly when the branch is active and n is below the number of entries the grid marks available |
| Capacity.SuccessiveBookings | src/modules/orders/orders.service.ts:65-239 | Such a series succeeds exactly min(free posts, eligible employees) times, then is refused |
| Capacity.AutomaticBooking | src/modules/orders/orders.service.ts:671-759 | One automatic booking, keyed or not, succeeds exactly when capacity is left, and uses up one unit of it |
| Capacity.EntryIsBookableIff | src/modules/scheduling/scheduling.service.ts:252-302 | Booking the post of an entry, keyed or not, succeeds exactly when the branch is active, its raw flag is set and its column advertises something; with an employee named, exactly when the entry itself is available |
| Capacity.EntryIsReschedulableIff | src/modules/orders/orders.service.ts:310-392 | Moving an order to an entry of the grid that excludes it, post and employee named or kept as stored, succeeds exactly when the branch is active and the entry is available, or its flag is set where no employee is asked for |
| Capacity.InactiveBranchAdvertisesIff | src/modules/scheduling/scheduling.service.ts:262-282 | A branch that is not active advertises a slot exactly when it has no configured profile, no employee is named and some post is free |
| Capacity.ClosedBranchAdvertises | src/modules/scheduling/scheduling.service.ts:52-61 | A concrete closed branch whose grid advertises a post |
| Capacity.ClosedBranchRefuses | src/modules/orders/orders.service.ts:151-161 | An otherwise admissible booking of that very slot is refused |
| Capacity.ColumnCapacityIsCapacity | src/modules/scheduling/scheduling.service.ts:262-282 | The capacity computed from the batches is the capacity counted on the tables |
| Capacity.BookingTakesResources | src/modules/orders/employee-eligibility.util.ts:39-54 | A booking removes exactly its own post and employee from what is free in its slot |
| GridAgreement.PostFlagAgreesIffInside | src/modules/scheduling/scheduling.service.ts:100-107 | A post's raw flag equals the point check for every order table if and only if the buffered slot lies inside the working hours |
| GridAgreement.PostFlagAgrees | src/modules/scheduling/scheduling.service.ts:205-242 | Inside the working hours the batched flag is the point check |
| GridAgreement.EmployeeFilterAgrees | src/modules/scheduling/scheduling.service.ts:119-203 | For every slot of the grid the in-memory filter keeps exactly the employees that the booking's own query finds eligible |
| GridAgreement.FreeEmployeesAreEligible | src/modules/scheduling/scheduling.service.ts:174-199 | The list of a slot enumerates the eligible employees, each once |
| GridAgreement.ShiftTextsAgree | src/modules/orders/employee-eligibility.util.ts:35-36 | Comparing shift texts in the database and minutes in memory gives one verdict |
| GridAgreement.EligibleIffShiftCovers | src/modules/orders/employee-eligibility.util.ts:16-56 | Eligible means: active branch, employable profile, a shift that covers every instant on one local day, and no order within the buffer |
| GridAgreement.EntryAnswer | src/modules/scheduling/scheduling.service.ts:244-306 | Place, time and availability of one entry: every free post while a named employee is eligible, else the first free posts, as many as eligible employees where staff is configured, else every free post |
| GridAgreement.ColumnAdvertisesCapacity | src/modules/scheduling/scheduling.service.ts:262-302 | Each column advertises all free posts or none when an employee is named, all without staff, else min(free posts, eligible employees) |
| GridAgreement.RawFlagIff | src/modules/scheduling/scheduling.service.ts:226-236 | A raw flag is set exactly when no live order of the post that overlaps the working hours comes within the buffer of the slot |
| GridAgreement.GridLayout | src/modules/scheduling/scheduling.service.ts:244-306 | The output is one block with an entry per post for each slot, in order, at aligned starts |
| GridAgreement.FlagsCountFreePosts | src/modules/scheduling/scheduling.service.ts:252-260 | The set flags of a column are as many as the free posts |
| Availability.CheckAvailability | src/modules/scheduling/scheduling.service.ts:36-309 | The three loops end and produce floor((dayEnd - dayStart) / slot) columns; missing branch, refused day and empty slot are handled as in the code |
| Availability.SlotFits | src/modules/scheduling/scheduling.service.ts:168 | The guard of the cursor loops holds for exactly the slots that fit before dayEnd |
| Availability.EmployeeAvailability | src/modules/scheduling/scheduling.service.ts:164-203 | First loop: the free employees of every slot |
| Availability.AllPostSlots | src/modules/scheduling/scheduling.service.ts:205-242 | Second loop: the raw flag of every post and slot |
| Availability.BuildColumn | src/modules/scheduling/scheduling.service.ts:252-302 | Third loop: among the free posts exactly the first ones, up to the capacity, stay available |
| Availability.InCappedIff | src/modules/scheduling/scheduling.service.ts:285-293 | Being in the sliced index set is being free with fewer free posts before than the capacity |
| WorkingWindow.WorkingWindowForInterval | src/common/utils/working-window.util.ts:12-44 | The walk over UTC minutes ends and computes the window from the earliest and latest local minute, across offset changes |
| WorkingWindow.WindowIsLeast | src/common/utils/working-window.util.ts:11-44 | A well-formed shift passes the text comparisons with the window exactly when it covers every instant of the interval |
| WorkingWindow.WindowCovers | src/common/utils/working-window.util.ts:11-44 | The window itself covers every instant of the interval |
| WorkingWindow.NoWindowIff | src/common/utils/working-window.util.ts:17-37 | There is no window exactly when the interval is empty or an instant, or the rounded-up end, is on another local day |
| WorkingWindow.TextOrderIsClockOrder | src/common/utils/working-window.util.ts:39-40 | Comparing "HH:MM" texts compares the minutes they name |
| WorkingWindow.LocalClock | src/common/utils/working-window.util.ts:18-21 | Local day and time are the UTC minute moved by the offset in force; the end is rounded up by less than a minute |
| Retry.RetriedShapes | src/modules/orders/reservation-transaction.util.ts:11-43 | Exactly which errors are retried |
| Retry.SettledIff | src/modules/orders/reservation-transaction.util.ts:50-66 | Which attempt decides: the first that does not fail with a conflict, if it is one of three |
| Retry.RunReservationTransaction | src/modules/orders/reservation-transaction.util.ts:46-67 | At most three attempts; exactly the returning one commits, and it commits once; only recognised conflicts are retried |
| Retry.CreateWithRetry | src/modules/orders/orders.service.ts:99-239 | With retries, create has the effect of one atomic step on the tables of its last attempt, event included, or none |
| BillingRoundTrip.RoundTripsIff | src/modules/subscriptions/subscriptions.service.ts:543-604 | Reading back printed items recovers the tier and exactly the positive addons, for every subscription, if and only if every id in use reads back as its own key |
| BillingRoundTrip.InjectivePricesRoundTrip | src/modules/subscriptions/paddle-webhook.service.ts:56-83 | Injective effective price maps, with no plan id among the addon ids, are enough |
| BillingRoundTrip.PrintedIsRecovered | src/modules/subscriptions/paddle-webhook.service.ts:460-588 | One printed subscription, read back |
| BillingRoundTrip.InjectiveReadsBack | src/modules/subscriptions/paddle-webhook.service.ts:64-83 | In a reverse map built from defaults and overrides the id of a key names that key |
| BillingRoundTrip.KeyNamesTier | src/modules/subscriptions/paddle-webhook.service.ts:508-523 | The text before the underscore of a price key, upper-cased, is its tier |
| BillingRoundTrip.SharedIdIsMisread | src/modules/subscriptions/paddle-webhook.service.ts:64-72 | One overridden price id that equals another plan's default makes Starter read back as Business |
| BillingRoundTrip.DefaultPlanIdIs | src/modules/subscriptions/plan.constants.ts:107-115 | The plan ids used without configuration |
| BillingRoundTrip.DefaultAddonIdIs | src/modules/subscriptions/plan.constants.ts:117-125 | The addon ids used without configuration |
| BillingRoundTrip.ItemNamesTier | src/modules/subscriptions/paddle-webhook.service.ts:470-482 | Valid metadata decides an item's tier; otherwise the key of its price does |
| BillingRoundTrip.TierIsFirstNamed | src/modules/subscriptions/paddle-webhook.service.ts:468-484 | The first item that names a tier decides; without one it is as if there were no items |
| BillingRoundTrip.TierWithoutItems | src/modules/subscriptions/paddle-webhook.service.ts:486-495 | Without items, the subscription's own tier text decides, if it is a tier; else Starter |
| BillingRoundTrip.SyncedIsBought | src/modules/subscriptions/paddle-webhook.service.ts:539-587 | A payload without rival writes leaves exactly the addons its items buy in positive quantity, each with its quantity and price id |
| Billing.BuildAllPaddleItems | src/modules/subscriptions/subscriptions.service.ts:576-604 | The plan line and one line per positive addon, or the error of the first missing id |
| Billing.PrintErrors | src/modules/subscriptions/subscriptions.service.ts:543-604 | Items can be printed exactly when the plan and every positive addon have an id; the plan comes first, once |
| Billing.OverrideWins | src/modules/subscriptions/subscriptions.service.ts:546-553 | A configured id is used before the default, and an empty or missing one is an error |
| Billing.BuildLookup | src/modules/subscriptions/paddle-webhook.service.ts:64-83 | Reverse lookup in which configured ids win over defaults |
| Billing.ExtractPlanTier | src/modules/subscriptions/paddle-webhook.service.ts:460-496 | The tier of the first item that names one, else the payload's own, else Starter |
| Billing.SyncAddons | src/modules/subscriptions/paddle-webhook.service.ts:529-588 | Whatever order the writes finish in, a payload without rival writes leaves exactly its own rows, whatever was stored before |
| Billing.PerformAll | src/modules/subscriptions/paddle-webhook.service.ts:572-587 | The same for the batch itself, performed in an arbitrary order |
| Billing.OrderIndependentIff | src/modules/subscriptions/paddle-webhook.service.ts:571-587 | All orders of the writes give one table exactly when no resource is written in two ways |
| Subscriptions.EveryRunIsCoherent | src/modules/subscriptions/paddle-webhook.service.ts:214-437 | After any run of webhooks, addon and plan calls, whatever Paddle ids they carry, the stored maxima of a tenant are those of its stored tier and addons unless another tenant's webhook replaced its addons since they were last derived |
| Subscriptions.FreeIdsKeepAllCoherent | src/modules/subscriptions/paddle-webhook.service.ts:214-437 | While no announced Paddle id is held by another tenant, that holds for all tenants |
| Subscriptions.CreatedKeepsCoherenceIff | src/modules/subscriptions/paddle-webhook.service.ts:237-259 | `subscription.created` keeps all maxima right, for every row its lookup may find and every list of items, if and only if no other tenant holds the announced id before the call |
| Subscriptions.EventKeepsCoherence | src/modules/subscriptions/paddle-webhook.service.ts:270-437 | Every single event leaves a tenant's maxima right if it derives them, or if they were right and it is no other tenant's webhook that found this tenant's row |
| LimitRaces.CoherentAtRestIff | src/modules/subscriptions/paddle-webhook.service.ts:237-259 | For every interleaving of the separately committed statements of concurrent calls: whatever they write, the stored maxima are right at the end if and only if the log has settled |
| LimitRaces.SettledIsCoherent | src/modules/subscriptions/subscriptions.service.ts:377-420 | Maxima stored last, from reads later than the last writes, are those of the stored tier and addons |
| LimitRaces.UnsettledGoesWrong | src/modules/subscriptions/subscriptions.service.ts:230-242 | Any other log stores wrong maxima for some contents of its writes that the code can produce |
| LimitRaces.RecalculationSettles | src/modules/subscriptions/subscriptions.service.ts:377-420 | One undisturbed recalculation at the end repairs whatever came before |
| LimitRaces.UndisturbedHandler | src/modules/subscriptions/paddle-webhook.service.ts:303-320 | A handler that nobody disturbs has the effect of the single event that stands for it |
| LimitRaces.OverlappingCallsGoStale | src/modules/subscriptions/subscriptions.service.ts:230-242 | Two concrete overlapping addon calls after which a bought branch is missing from the stored maxima |
| Subscriptions.AcceptedDowngradeLands | src/modules/subscriptions/subscriptions.service.ts:145-170 | An accepted downgrade, delivered back by the webhook for the same items, lands within every new maximum |
| Subscriptions.PlanChangeKeepsWithin | src/modules/subscriptions/subscriptions.service.ts:143-160 | No accepted plan change, up or down, takes a tenant within its maxima above the new ones |
| Subscriptions.AcceptedChangeLands | src/modules/subscriptions/subscriptions.service.ts:143-170 | The same once the webhook has delivered the change |
| Subscriptions.ChangeRefusedForUsageIff | src/modules/subscriptions/subscriptions.service.ts:131-154 | A change is refused for usage exactly when it leads to a lower plan that the usage exceeds |
| Subscriptions.AddonStoredIff | src/modules/subscriptions/subscriptions.service.ts:193-240 | An addon is stored exactly on a paid plan whose items can be printed and which Paddle, if linked, accepts |
| Subscriptions.EventEffects | src/modules/subscriptions/paddle-webhook.service.ts:237-437 | What each event stores for its tenant, and that other tenants keep their rows |
| Plans.PlanMaxima | src/modules/subscriptions/plan.constants.ts:24-39 | The maxima of each plan without addons |
| Plans.OneUnitMore | src/modules/subscriptions/plan.constants.ts:75-95 | One more unit of an addon raises exactly its own maximum, by its unit size |
| Subscriptions.ManagedAddonIsConfirmed | src/modules/subscriptions/subscriptions.service.ts:202-242 | The webhook for the items that manageAddon sent leaves the tier and limits that manageAddon stored |
| Subscriptions.DeriveLimits | src/modules/subscriptions/subscriptions.service.ts:382-417 | The loop over addon rows derives the limits of tier and table, in any row order |
| Subscriptions.ValidateDowngrade | src/modules/subscriptions/subscriptions.service.ts:468-521 | Refuses exactly when some count exceeds its new maximum |
| Subscriptions.SubscriptionStore.Recalculate | src/modules/subscriptions/subscriptions.service.ts:377-420 | Stores the derived limits and nothing else |
| Subscriptions.SubscriptionStore.HandleCreated | src/modules/subscriptions/paddle-webhook.service.ts:214-268 | Tier of the payload for its tenant, addons for the row found by Paddle id, limits derived again |
| Subscriptions.SubscriptionStore.HandleUpdated | src/modules/subscriptions/paddle-webhook.service.ts:270-333 | Tier, status and addons of the found row, limits derived again |
| Subscriptions.SubscriptionStore.SetStatus | src/modules/subscriptions/paddle-webhook.service.ts:335-437 | Only the status changes |
| Subscriptions.SubscriptionStore.ChangePlan | src/modules/subscriptions/subscriptions.service.ts:124-184 | The items sent or the reason for refusing; a cancelled subscription becomes active, nothing else is stored |
| Subscriptions.SubscriptionStore.ManageAddon | src/modules/subscriptions/subscriptions.service.ts:186-245 | The addon row and the derived limits are stored exactly when every step before them succeeds |
| ResourceCap.CountStaysWithinMax | src/modules/subscriptions/subscriptions.repository.ts:123-201 | Over any run of creates, restores and deletes under a fixed maximum the live count never passes it, and is never raised when already above |
| ResourceCap.CapIsReached | src/modules/subscriptions/subscriptions.repository.ts:141-201 | Under terms in force, creations succeed exactly until the maximum is reached |
| ResourceCap.VerdictIff | src/modules/subscriptions/subscriptions.repository.ts:150-201 | Expired trial, inactive subscription, then the count: exactly when each verdict is given |
| ResourceCap.CallEffects | src/modules/subscriptions/subscriptions.repository.ts:123-139 | Which calls change the table, and that they change one row |
| ResourceCap.ResourceTable.WithResourceLimit | src/modules/subscriptions/subscription-limits.service.ts:29-60 | Writes exactly when trial, status and count allow it |
| ClientMerge.MergeKeepsOwnership | src/modules/clients/clients.repository.ts:118-195 | Every order still has a vehicle of its own client, with the plate it had; no order is lost or left with the source or a folded vehicle; each source vehicle is moved, or deleted without orders |
| ClientMerge.MergedOrder | src/modules/clients/clients.repository.ts:147-176 | Where a merge leaves one order |
| ClientMerge.LiveVehicleLostIff | src/modules/clients/clients.repository.ts:140-162 | An order's live vehicle ends up deleted exactly when the plate map names a deleted vehicle of the target |
| ClientMerge.LiveVehicleIsLost | src/modules/clients/clients.repository.ts:124-170 | A concrete merge that does this |
| ClientMerge.ClientTables.FoldVehicles | src/modules/clients/clients.repository.ts:147-170 | The loop folds or moves each source vehicle and re-points exactly the orders of folded ones, in any listing order |
| ClientMerge.LastListedCounts | src/modules/clients/clients.repository.ts:141-145 | Of several target vehicles with one plate the last listed one is kept; a missing plate never matches |
| ClientMerge.ClientTables.Merge | src/modules/clients/clients.repository.ts:118-188 | All three tables after the merge |
| CsvExport.CsvRoundTripIff | src/modules/analytics/analytics-export.service.ts:237-248 | A reader following section 2 of RFC 4180 that ends records only at CRLF gets the table back, for arbitrary field texts, exactly when every record has a field |
| CsvExport.CsvRoundTripWithLastBreakIff | src/modules/analytics/analytics-export.service.ts:244-248 | The exact tables for a reader that drops a line break at the end of the file |
| CsvExport.QuotedReads | src/modules/analytics/analytics-export.service.ts:237-240 | Doubled quotes are undone inside a quoted field |
| CsvExport.BareReads | src/modules/analytics/analytics-export.service.ts:241 | An unquoted field, bare CR included, is read as it is |
| CsvExport.QuotedIff | src/modules/analytics/analytics-export.service.ts:237-242 | A field is quoted exactly when it has a comma, a quote or a line feed |
| BatchFetch.FetchInBatches | src/modules/analytics/analytics-export.service.ts:185-234 | Over a static table: exactly the first min(n, 10000) rows in query order, no gap, no repeat, and the loop ends |
| BatchFetch.ViewsAgree | src/modules/analytics/analytics-export.service.ts:199-207 | With the id tie-break every evaluation of the order lists the same rows in the same places |
| BatchFetch.ViewExists | src/modules/analytics/analytics-export.service.ts:199-207 | Every table can be listed in this order |
| BatchFetch.ViewIsSorted | src/modules/analytics/analytics-export.service.ts:199-207 | Rows come by descending key and ascending id |
| BatchFetch.NextBatch | src/modules/analytics/analytics-export.service.ts:210-216 | The cursor continues exactly where the fetched rows stop |
| BatchFetch.TieBreakMatters | src/modules/analytics/analytics-export.service.ts:199-207 | Without the tie-break, of any two rows with one key the second can be lost between two batches |
| TenantScope.ReadIsScoped | src/prisma/tenant-prisma.service.ts:51-99 | A rewritten read returns exactly the tenant's rows that meet the caller's filter, deleted ones only on request; both rewritings agree and keep the marker from the query |
| TenantScope.PlainReads | src/prisma/tenant-prisma.service.ts:51-99 | Reads of models without soft delete are scoped by tenant alone; bypassed models are not scoped |
| TenantScope.ModelsFollowTheSchema | prisma/schema.prisma:74-490 | Deleted rows are filtered for exactly the models with the column; of those with a tenant column only idempotency keys are bypassed |
| TenantScope.WriteEffects | src/prisma/tenant-prisma.service.ts:100-198 | A write changes or removes exactly the tenant's rows it is for, or adds one row of the tenant |
| TenantScope.WritesKeepOthers | src/prisma/tenant-prisma.service.ts:100-198 | No sequence of writes whose data names no other tenant changes another tenant's rows |
| TenantScope.WriteKeepsOthers | src/prisma/tenant-prisma.service.ts:121-144 | The same for one write of any kind |
| TenantScope.UpdateKeepsOthersIff | src/prisma/tenant-prisma.service.ts:121-132 | An update keeps other tenants' rows for every table and filter if and only if its data names no other tenant |
| TenantScope.TenantClient.FindMany | src/prisma/tenant-prisma.service.ts:51-65 | The hook's reassignments build that rewritten filter |
| TenantScope.TenantClient.UpdateMany | src/prisma/tenant-prisma.service.ts:127-132 | Changes exactly the tenant's rows that meet the filter |
| TenantScope.TenantClient.DeleteMany | src/prisma/tenant-prisma.service.ts:139-144 | Removes exactly those rows |
| TenantScope.TenantClient.Create | src/prisma/tenant-prisma.service.ts:100-107 | Inserts under the client's tenant, whatever the data says |
| TenantScope.TenantClient.Upsert | src/prisma/tenant-prisma.service.ts:190-198 | Creates under the client's tenant, or updates the tenant's own row |

## Left out

- Isolation levels, row locks and lock queues: a committed transaction is one atomic step and an abort changes nothing, which is what Serializable isolation and the row locks are there for. `softDelete` reads and writes in two statements; it is one step here.
- Webhook handlers are not transactions in the code. `Subscriptions` runs each to completion; `LimitRaces` takes them apart, for the limits of one tenant.
- The nightly hard delete of rows that have been soft-deleted for weeks, and the change of owner that a client merge makes, are no steps of a booking run; neither makes an order active or moves it.
- Tenants in the booking tables: all rows of `Booking` belong to one tenant; the scoping of queries by tenant is the subject of `TenantScope`.
- Booking-day rules (working days, advance limit) are a parameter of each call (`dayAllowed`), and the working hours of a day enter the grid as two instants.
- date-fns-tz: a timezone offset is an arbitrary whole number of minutes for each UTC minute; offsets with seconds are not covered.
- Availability.CheckAvailability: shift texts of profiles have the form that the profile requests demand; on any other text the code throws. Parsing the working-hours texts of the settings is not modelled.
- Ids made by the database are a parameter of the creating call; a repeated one is refused as a unique index would.
- Retry.CreateWithRetry: only `create` is written out with its retries; `reschedule`, `updateStatus` and `restore` use the same loop.
- Events other than ORDER_CREATED and PAYMENT_RECEIVED, and what their listeners do.
- BookingSafety.EveryRunIsSound: orders whose total is zero have no payment bound, as in the code; prices and durations of services are natural numbers.
- BookingStore.Store.Create: columns that no decision reads (notes, creator, order lines with their prices) are not stored.
- Idempotency: the older `check`, `acquireLockTx`, `save` and `upsertResult`, which orders and payments do not use.
- Subscriptions.SubscriptionStore.HandleCreated: period dates, trial flags, customer ids and Paddle's own status are not stored; a missing tenant id or subscription id returns early in the code and is not a call here.
- Subscriptions.EveryRunIsCoherent: the administrator's `upsert` sets limits directly and is not an event.
- Webhook signatures and the Redis record of processed event ids.
- BillingRoundTrip.RoundTripsIff: webhook items that carry `plan_tier` metadata are read (`Billing.TierOfItem`) but not printed by the code, so they take no part in the round trip; at least one plan id must be configured, and stored addons are of the four known resources.
- Price ids that collide with names on the JavaScript object prototype.
- Checkout, plan previews, cancellation and reactivation calls to Paddle beyond the status they store.
- ResourceCap.CountStaysWithinMax: the maximum is fixed along the run; a change of plan starts a new run.
- ClientMerge.ClientTables.Merge: the check that both clients are live and different happens in the service and the request validation; it is a precondition here.
- BatchFetch.FetchInBatches: one sort key before the id tie-break, which is how both exports call it; the relations loaded with each row are not modelled.
- CSV cells: turning rows into texts (dates, names, amounts) is not modelled.
- TenantScope.ReadIsScoped: filters are conditions on the row itself; filters on related rows and `include` are not rewritten by the code and not modelled.
- `validateNoOverlap`, `applyBufferTime`, schedules, lists, analytics ratios, pagination, controllers, guards and pages: short enough to be judged by reading them.
