# Ride-booking backend: model and proofs

A Dafny model of the stateful core of the Tru_Booker backend, with proofs of what its calls keep. Every component comes
in two layers. A **specification** is a function from the stored rows to the new rows and the reply. The component
**in the source's own form** is a class whose methods assign, loop and return early the way the TypeScript does; each
method is proved equal to its specification, and the properties are proved about the specification, over all runs.

| files | component |
|---|---|
| `Ledger.dfy` | trips, booking intents, payments, bookings, escrows, driver balances and the gateway's refunds; 15 calls |
| `LedgerSeats.dfy`, `LedgerMoney.dfy` | what every call keeps: seats; escrow, balances and refunds |
| `LedgerCalls.dfy`, `LedgerOrders.dfy` | what each call accepts and writes, column by column, on the stored rows alone |
| `LedgerRuns.dfy` | the results over whole runs |
| `LedgerPayments.dfy`, `LedgerCharges.dfy` | booked only when paid, refunded only what was taken; charges without a booking, intents that stay pending |
| `LedgerBothWays.dfy`, `LedgerGuards.dfy` | ledger promises the code does not keep, with the exact conditions |
| `LedgerLifecycle.dfy` | a trip's status, closing and terms over runs |
| `LedgerWitnesses.dfy` | concrete runs for the promises that fail |
| `TripRepository.dfy` | the same calls as methods of `TripRepository`, `DriverService` and `PaymentService` over one `Database` |
| `Pricing.dfy` | fare, luggage and coupon arithmetic |
| `KillSwitch.dfy`, `KillSwitchCache.dfy`, `KillSwitchService.dfy`, `RedisCache.dfy` | the audited record, its three-level cache, and the store under it |
| `Vault.dfy`, `VaultWitnesses.dfy` | the encrypted-column envelope; a cipher and environments for which it cannot be opened |
| `Referrals.dfy` | agents' capped commission |
| `AppVersions.dfy` | latest-per-key index and version cache |
| `Documents.dfy` | document review, mirror and flags |
| `TripRequests.dfy` | date spellings and duplicate requests |
| `Paging.dfy`, `Activity.dfy` | page chains; rounded percentages |
| `Common.dfy`, `Text.dfy` | ids, options, tables as row sequences, sums |

## How the source is read

- Calls are serialised. A table is the sequence of its rows: `findOne` is the first match, `save` appends or rewrites.
- `BookTripUsecase` passes no entity manager, so a `bookTrip` that throws half-way keeps what it wrote; with a manager
  the transaction undoes it. `Setting.transactional` covers both, and `Setting.stale` covers a re-read of the trip that
  still shows the count from before the released hold. The results hold for all four combinations.
- A refund call either returns or throws; `fails` is the set of rows whose call throws, so every pattern is covered.
  The boolean that `initiateRefund` returns is ignored by the source, and so here.
- `cancelBooking` measures the two-hour window with `new Date(departureTime)`. The column holds a time only, which is
  not a date, and the comparison with NaN is false. `Trip.timeAlone` is what that expression yields.
- `initiatePayment` runs in no transaction: a new price and payment row stay when a later line throws, the gateway call
  included. It tries a coupon that gave no discount once more, and there a refused coupon is no error.
- The global validation pipe (src/shared/validations/custom.validation.ts:3-5) does not strip keys a body type does not
  declare. `updateTrip` assigns the body to the row, and `createTrip` spreads it into the new row before setting driver and
  status. `Edit.extra` and the last two fields of `NewTrip` are the columns a body may so carry; a call is `Declared` when
  it carries no status, count, driver or closing flag. Results about money hold for every body, results about counts and
  status say which bodies break them.
- The driver module's `updateTrip` assigns column by column and so writes only what it names (`Revise`). Its `createTrip`
  also writes named columns only, and is a `Create` that carries nothing.
- Rows with the same `createdAt` come from the database in any order. The model reads the one stored last; which one is
  read matters only in a tie (`AppVersions.AnyDescendingOrder`).
- A referral call carries no trip, and the source does not remember the trips it has paid for: `n` counts calls.
- `cancelTrip` cancels bookings without giving their seats back. For trips that are not cancelled this cannot be seen,
  and that is how the seat result is stated; the invariant underneath counts those seats and covers cancelled trips too.
- Decimal columns arrive as strings, so a stored `maxDiscount` of 0.00 is truthy and caps the discount at 0.
- Money is exact `real`; times are integer milliseconds.

Promises that turned out false, each with the exact condition and an input that shows it:

- *bookedSeats counts the seats taken.* Every call keeps the count exactly unless it is an accepted `createTrip` whose body
  carries one, or an accepted `updateTrip` whose body carries another one or takes a trip with driver-cancelled bookings
  out of the cancelled state (`LedgerRuns.StepKeepsInv`; `LedgerWitnesses.HeldSeatsForgotten`).
- *bookedSeats never exceeds totalSeats.* `updateTrip` is refused only when a booking is confirmed, not when seats are
  held for payment. Every call keeps the cap except an accepted `updateTrip` or `createTrip` that leaves fewer seats than
  booked ones (`LedgerRuns.StepKeepsCap`, both directions; `LedgerWitnesses.OversoldAfterUpdate`).
- *A trip goes from upcoming to active, started and completed, or is cancelled, and an ended trip has ended.* A status leaves
  these edges exactly by an accepted `updateTrip` whose body carries another status (`LedgerLifecycle.StatusMoves`;
  `LedgerWitnesses.CompletedThenUpcoming`).
- *A charged passenger has a booking.* A payment the gateway confirms leads to none exactly when its pending row is gone, its
  intent is no longer pending, it fell short, or it has its booking already (`LedgerCharges.ChargeWithoutBooking`,
  `LedgerCharges.DroppedForGood`; `LedgerWitnesses.ChargedWithoutBooking`).
- *A hold lasts thirty minutes.* It lasts until the passenger books the trip again or the payment is confirmed, whatever
  the clock shows (`LedgerCharges.StepEndsPending`; `LedgerWitnesses.PaidAfterExpiry`).
- *A fare goes to the driver or back to the passenger* (the comment on the escrow entity). Neither `cancelBooking` nor
  `cancelTrip` looks at the ticket. A fare goes both ways exactly when one of them refunds a passenger who has boarded
  (`LedgerBothWays.StepPaysBothWays` for every call, `LedgerBothWays.PaidBothWaysIff` over every run;
  `LedgerWitnesses.BoardedAndRefunded` by the passenger, `LedgerWitnesses.BoardedThenTripCancelled` by the driver).
- *A refunded escrow was refunded.* An escrow is marked refunded exactly by the driver module's `cancelTrip`, which calls
  no gateway, and no such booking is ever refunded (`LedgerBothWays.StepMarksRefunded`,
  `LedgerRuns.EscrowRefundedMeansNoRefund`; `LedgerWitnesses.MarkedRefundedNeverPaid`).
- *Cancellations must be made at least two hours before departure.* Inside the window a cancellation is refused exactly
  when the time column parses as a date (`LedgerGuards.WindowBites`, `LedgerGuards.ClockIgnored`), which a time-only
  column never does (`LedgerGuards.WindowNeverBites`; `LedgerWitnesses.CancelledAfterDeparture`).
- *A confirmed booking is for a trip still to run.* Neither `bookTrip` nor `verifyPayment` looks at the trip's status. A
  booking comes to stand on an ended trip exactly by a payment verified after the end, and leaves that state exactly
  by its passenger's cancellation (`LedgerGuards.StepStrands`; `LedgerWitnesses.PaidForCancelledTrip`).
- *vaultDecrypt undoes vaultEncrypt.* In vault mode exactly when the reader has a token and its column key is the writer's
  data key (`Vault.VaultRoundTrip`; `VaultWitnesses.OwnEnvelopeUnreadable`); after a switch from local mode exactly when
  VAULT_LOCAL_KEY decodes to the same key (`Vault.LocalRoundTrip`; `VaultWitnesses.LocalEnvelopeLost`).
- *All accepted spellings of a day are equivalent.* The day-first spelling is range-checked and the ISO spelling is not
  (`TripRequests.SpellingsAgree`; `TripRequests.MonthThirteen`).
- *Killing or restoring one service concerns that service.* It changes the others exactly when the global switch is on and
  the list of killed services is empty before, or empty after (`KillSwitch.KillingOne`, `KillSwitch.KillingMany`,
  `KillSwitch.RestoringOne`; `KillSwitch.RestoreTakesAllDown`).

## Model

| member | source | states |
|---|---|---|
| LedgerRuns.StepKeepsInv | src/adapters/repositories/trip.repository.ts:448-488 | for each of the 15 calls and every body: the whole ledger invariant (seats counted right, one hold per passenger and trip, escrows, balances and refunds in step) is kept if and only if the call does not miscount seats |
| LedgerRuns.StepKeepsMoney | src/adapters/repositories/trip.repository.ts:490-694 | each of the 15 calls, whatever its body carries, keeps one escrow per booking released exactly when its ticket was scanned, balances equal to the released escrows, and refunds equal to the REFUNDED rows |
| LedgerRuns.RunKeepsInv | src/adapters/repositories/trip.repository.ts:1111-1312 | every sequence of calls none of which miscounts keeps the whole invariant |
| LedgerRuns.RunKeepsMoney | src/adapters/repositories/trip.repository.ts:1111-1312 | every sequence of calls, without condition, keeps the money invariant |
| LedgerRuns.DeclaredCountsRight | src/modules/trip/dtos/trip.dto.ts:77-92 | calls whose bodies carry no undeclared status, count, driver or closing flag never miscount |
| LedgerRuns.BookedSeatsAreTaken | src/adapters/repositories/trip.repository.ts:1141-1202 | after every run in which no call miscounts, bookedSeats of a trip that is not cancelled is the seats of its pending intents plus the seats of its live bookings, never negative |
| LedgerRuns.OneHoldAlways | src/adapters/repositories/trip.repository.ts:1137-1152 | after every run, whatever the bodies carry, a passenger has at most one pending intent on a trip |
| LedgerRuns.StepKeepsCap | src/adapters/repositories/trip.repository.ts:1154-1158 | a call takes bookedSeats above totalSeats if and only if it is an accepted updateTrip or createTrip that leaves fewer seats than booked ones, by its seats or by a count its body carries, whether the seat re-read is stale or not |
| LedgerRuns.RunKeepsCap | src/adapters/repositories/trip.repository.ts:448-488 | the cap holds over every run without such a call |
| LedgerCalls.BoardAccepted | src/adapters/repositories/trip.repository.ts:498-521 | a scan succeeds if and only if the first booking with the code is on the caller's own trip, paid and confirmed, and a token, if shown, is its non-empty ticket token; otherwise nothing changes |
| LedgerCalls.BoardRefusals | src/adapters/repositories/trip.repository.ts:498-516 | NotFound exactly without driver or booking, Forbidden on another driver's trip, BadRequest for a ticket not in order |
| LedgerCalls.CancelBookingAccepted | src/adapters/repositories/trip.repository.ts:1252-1312 | accepted if and only if it is the passenger's own pending or confirmed booking, in time, whose refund goes through; then exactly that row, one refund of what it paid and its trip's seats change, and with no such booking the answer is NotFound |
| LedgerCalls.CancelRefusals | src/adapters/repositories/trip.repository.ts:1256-1274 | NotFound exactly when the passenger has no such booking, else BadRequest |
| LedgerCalls.CancelTripRows | src/adapters/repositories/trip.repository.ts:212-288 | row by row: a pending or confirmed booking of the trip is cancelled and stamped, refunded if paid with a reference and its call returned, flagged if it threw; every other row is untouched |
| LedgerCalls.FlaggedAreListed | src/adapters/repositories/trip.repository.ts:248-261 | a booking is newly flagged refundFailed if and only if failedRefunds lists its position |
| LedgerCalls.WithdrawRows | src/modules/driver/services/driver.service.ts:482-552 | the driver module's cancelTrip cancels the same bookings, needs a reason, and refunds nothing |
| LedgerCalls.CompletionRows | src/adapters/repositories/trip.repository.ts:153-182 | completeTrip is accepted from active or started only and completes exactly the confirmed bookings, the driver module's exactly the confirmed and paid ones |
| LedgerCalls.ActivateAndStart | src/adapters/repositories/trip.repository.ts:142-151 | activateTrip is accepted exactly by the owner of an upcoming trip, which becomes active; startTrip exactly by the owner of an active one, which becomes started |
| LedgerCalls.OpenAndClose | src/adapters/repositories/trip.repository.ts:617-632 | accepted exactly by the owner of an upcoming or active trip, which is then closed exactly when the call did not open it |
| LedgerCalls.CreateStores | src/adapters/repositories/trip.repository.ts:63-140 | who may create a trip, and every column of the row stored |
| LedgerCalls.UpdateStores | src/adapters/repositories/trip.repository.ts:448-488 | which updates are accepted; every column the body carries is stored and every other stays |
| LedgerCalls.ReviseStores | src/modules/driver/services/driver.service.ts:272-388 | the driver module's updateTrip writes only what it is given, on an upcoming trip without confirmed bookings, and never fewer seats than are booked |
| LedgerCalls.TripRefusals | src/adapters/repositories/trip.repository.ts:1735-1741 | a trip call is refused with NotFound exactly when the trip is not the caller's, else with BadRequest |
| LedgerOrders.BookTripWrites | src/adapters/repositories/trip.repository.ts:1111-1247 | a call that cannot be served changes nothing; any other releases the passenger's own hold with its seats and payments and nothing else, then refuses, or writes one half-hour hold at the quoted price and at most one payment of that price; a throw inside a transaction undoes it all |
| LedgerOrders.OtherPaymentsStay | src/adapters/repositories/trip.repository.ts:1146-1147 | a payment of any other intent stays in the table as often as before, but for the one row under the order's own code and reference |
| LedgerOrders.ReplacedPaymentsGo | src/adapters/repositories/trip.repository.ts:1147 | after an accepted order no payment of the replaced intent is left |
| LedgerOrders.PaymentStarted | src/modules/passenger/services/payment.service.ts:49-126 | a payment is started if and only if the intent is the caller's own, pending and not expired, and the reference is unused; it asks for what the intent costs, and otherwise no payment changes |
| LedgerOrders.RetriedCoupon | src/modules/passenger/services/payment.service.ts:77-87 | the coupon is tried again only where it gave nothing before, and then gives what it gives now |
| LedgerOrders.VerifyWrites | src/modules/passenger/services/payment.service.ts:132-256 | a booking is written only for a pending payment of a pending intent the gateway took enough for; booking, escrow, intent and payment then hold what the intent says, with net * 100 = full fare * (100 - fee) |
| LedgerOrders.FeeInPercent | src/modules/passenger/services/payment.service.ts:240-246 | the platform fee is a percentage of the fare |
| LedgerWitnesses.TokenMatters | src/adapters/repositories/trip.repository.ts:510-512 | a scan with another or an empty token is refused, and the ticket's own token boards and pays |
| LedgerWitnesses.OnlyOwnBookings | src/adapters/repositories/trip.repository.ts:1259-1263 | another passenger's cancellation is answered NotFound and changes nothing |
| LedgerWitnesses.DriverPaidInFull | src/modules/passenger/services/payment.service.ts:240-246 | a 5000 fare booked for 4500 leaves the driver 4650 at 7 percent |
| LedgerSeats.BookOutcomes | src/adapters/repositories/trip.repository.ts:1141-1202 | a bookTrip call, however it ends, leaves one of four states: untouched, old hold released, new hold, new hold with payment, and holds only seats that were left |
| LedgerSeats.MoveToBooking | src/modules/passenger/services/payment.service.ts:198-223 | confirmation moves an intent's seats to its booking without touching bookedSeats, keeping the seat ledger |
| LedgerRuns.BalanceIsReleasedEscrow | src/adapters/repositories/trip.repository.ts:676-694 | after every run a driver's balance is the opening balance plus the net of that driver's released escrows, and the `credited` replies add up to the same sum |
| LedgerMoney.BoardEffect | src/adapters/repositories/trip.repository.ts:490-543 | a scan changes nothing, or boards exactly the coded booking: ticket, its own escrow and the scanning driver's balance |
| LedgerRuns.ScanPaysOnce | src/adapters/repositories/trip.repository.ts:566-612 | a successful scan pays that booking's escrow the first time and nothing when repeated, by either scan path |
| LedgerRuns.NoLateCredit | src/adapters/repositories/trip.repository.ts:514-521 | once a booking is cancelled, completed or refunded, no continuation of the run changes its escrow |
| LedgerRuns.HeldAtCompletionStaysHeld | src/adapters/repositories/trip.repository.ts:164-182 | whatever escrow a confirmed booking has when completeTrip closes it, it keeps for ever: a no-show is never paid to the driver |
| LedgerRuns.CancelTripSettles | src/adapters/repositories/trip.repository.ts:222-294 | for every table and every pattern of gateway failures: open bookings of the trip end cancelled, others are untouched, a row turns REFUNDED exactly when its call was made and returned, and new refunds are what was due minus what failed |
| LedgerRuns.FailedRefundsExact | src/adapters/repositories/trip.repository.ts:227-261 | failedRefunds lists, in table order, exactly the open paid-with-reference bookings whose call threw |
| LedgerRuns.RefundsPlusFailures | src/adapters/repositories/trip.repository.ts:229-266 | refunded amounts plus failed amounts are what those bookings had paid |
| LedgerRuns.RefundedOnce | src/adapters/repositories/trip.repository.ts:1276-1306 | over every run mixing cancelBooking, retries and cancelTrip, the gateway accepts at most one refund per booking, REFUNDED says exactly that it did, references are unique, and refunds total what the refunded bookings paid |
| LedgerBothWays.StepPaysBothWays | src/modules/core/entities/escro.entity.ts:9-14 | for every call: a booking becomes refunded with its escrow paid to the driver if and only if the call is an accepted cancelBooking or cancelTrip that refunds it after its ticket was scanned; nothing undoes it |
| LedgerBothWays.PaidBothWaysIff | src/adapters/repositories/trip.repository.ts:222-246 | over every run, a fare went both ways if and only if some call of the run refunded it after boarding |
| LedgerBothWays.PaymentAfter | src/adapters/repositories/trip.repository.ts:1276-1295 | for every call and every pattern of gateway failures, a booking turns REFUNDED exactly by an accepted cancelling call that reaches its refund, and keeps its ticket then |
| LedgerBothWays.StepMarksRefunded | src/modules/driver/services/driver.service.ts:520-552 | an escrow is marked refunded exactly by an accepted driver-module cancelTrip that meets a paid open booking with a held escrow |
| LedgerRuns.EscrowRefundedMeansNoRefund | src/modules/driver/services/driver.service.ts:781-799 | an escrow marked refunded belongs to a cancelled booking still marked paid, for which the gateway accepted no refund |
| LedgerWitnesses.OversoldAfterUpdate | src/adapters/repositories/trip.repository.ts:459-487 | a three-call run ends with four seats booked on a one-seat trip |
| LedgerWitnesses.HeldSeatsForgotten | src/adapters/repositories/trip.repository.ts:484-487 | a three-call run after which four held seats are counted as none |
| LedgerWitnesses.CompletedThenUpcoming | src/adapters/repositories/trip.repository.ts:484-487 | a four-call run that takes a completed trip back to upcoming |
| LedgerWitnesses.ChargedWithoutBooking | src/adapters/repositories/trip.repository.ts:1141-1152 | a run after which the payment of the first reference is verified to no effect |
| LedgerWitnesses.PaidAfterExpiry | src/modules/passenger/services/payment.service.ts:63-69 | an expired intent admits no new payment, and its first payment still confirms the booking |
| LedgerWitnesses.BoardedAndRefunded | src/adapters/repositories/trip.repository.ts:1265-1295 | a five-call run credits the driver 93 and refunds the passenger 100 for the same seat |
| LedgerWitnesses.BoardedThenTripCancelled | src/adapters/repositories/trip.repository.ts:229-246 | a five-call run in which the driver boards the passenger, cancels the trip and keeps the 93 while the 100 is refunded |
| LedgerWitnesses.MarkedRefundedNeverPaid | src/modules/driver/services/driver.service.ts:781-799 | a four-call run ends with the escrow marked refunded, no refund and no credit |
| LedgerWitnesses.PaidForCancelledTrip | src/modules/passenger/services/payment.service.ts:198-223 | a four-call run confirms a booking on a cancelled trip |
| LedgerWitnesses.CancelledAfterDeparture | src/adapters/repositories/trip.repository.ts:1268-1274 | a four-call run refunds a cancellation made after the departure |
| LedgerGuards.StepStrands | src/modules/passenger/services/payment.service.ts:136-223 | for every call and body: a booking comes to stand confirmed on a completed or cancelled trip exactly when its payment passes every guard of verifyPayment after the end, and stops exactly when its passenger cancels it (updateTrip is refused while a booking is confirmed) |
| LedgerGuards.ReachableStrands | src/adapters/repositories/trip.repository.ts:153-182 | the same from every reachable state: completing or cancelling a trip never leaves a confirmed booking behind |
| LedgerGuards.WindowBites | src/adapters/repositories/trip.repository.ts:1268-1274 | within two hours of departure an otherwise acceptable cancellation is refused if and only if the time column parses as a date |
| LedgerGuards.ClockIgnored | src/adapters/repositories/trip.repository.ts:1269-1270 | an otherwise acceptable cancellation is accepted at every moment if and only if the column does not parse |
| LedgerGuards.WindowNeverBites | src/modules/core/entities/trip.entity.ts:40-41 | over every run with a time-only column no acceptable cancellation is ever refused for being late |
| LedgerPayments.PaidInFull | src/modules/passenger/services/payment.service.ts:178-198 | after every run a booking is written only when the gateway answered that it took at least what the booking costs, retried coupons and several payment rows included |
| LedgerPayments.RefundsWithinTakings | src/adapters/repositories/trip.repository.ts:222-266 | over every run the refunds never exceed what the gateway took for bookings |
| LedgerPayments.RepricedIsCheaper | src/modules/passenger/services/payment.service.ts:78-87 | trying the coupon again never raises what the intent asks for |
| LedgerPayments.StepKeepsPayments | src/adapters/repositories/trip.repository.ts:1137-1216 | each call keeps every payment row tied to a stored intent that asks for no more than the payment does, with distinct intents |
| LedgerCharges.ChargeWithoutBooking | src/modules/passenger/services/payment.service.ts:139-198 | after every run, a payment the gateway confirms writes no booking if and only if no pending row has its reference, a booking has it already, its intent is no longer pending, or it fell short; the other guards never stand in the way |
| LedgerCharges.DroppedForGood | src/adapters/repositories/trip.repository.ts:1147 | once bookTrip has dropped the payment row, no later verification of its reference does anything, as long as the reference is not used again |
| LedgerCharges.StepEndsPending | src/adapters/repositories/trip.repository.ts:1137-1152 | for every call but the passenger's own rebooking, a pending intent stops being pending if and only if the call confirms its payment; the clock plays no part |
| LedgerCharges.PendingForEver | src/adapters/repositories/trip.repository.ts:1197-1201 | over every continuation without such a call an intent stays pending and keeps its seats |
| LedgerLifecycle.TripsLast | src/adapters/repositories/trip.repository.ts:63-140 | a stored trip is kept by every continuation of declared calls with its driver, its status never goes back, and an ended trip keeps its status |
| LedgerLifecycle.NewTripIsUpcoming | src/adapters/repositories/trip.repository.ts:75-140 | whatever the call, a trip that appears was created by a verified driver, fits the vehicle, is upcoming, and has the booked seats the body carries, none if it carries none |
| LedgerLifecycle.CompletedWasActive | src/adapters/repositories/trip.repository.ts:142-151 | over every run of declared calls, a started or completed trip was active at an earlier point of the run |
| LedgerLifecycle.StatusMoves | src/adapters/repositories/trip.repository.ts:478-487 | whatever the call and its body, a trip's status moves only by its own driver; it moves otherwise than along upcoming, active, started, completed or to cancelled if and only if an accepted updateTrip carries another status, and the driver changes if and only if one carries another driver |
| LedgerLifecycle.ClosedTakesNobody | src/adapters/repositories/trip.repository.ts:617-632 | once bookings are closed, no run without a reopening call, or an update that carries the flag or the count, takes one more seat on the trip |
| LedgerLifecycle.ConfirmedFreezesTerms | src/adapters/repositories/trip.repository.ts:459-471 | as long as the trip has a confirmed booking, no run changes its driver, seats, fare or times, whatever the bodies carry |
| TripRepository.TripRepository.BookTrip | src/adapters/repositories/trip.repository.ts:1111-1247 | the writes, one after the other, end in the specified rows also when the call throws, and meet the order's promise: own hold and payments released, nobody else's touched, one hold and one payment written |
| TripRepository.TripRepository.BoardPassenger | src/adapters/repositories/trip.repository.ts:490-530 | the shared scan steps succeed if and only if the driver may board the booking with the token shown, and otherwise leave everything as it was |
| TripRepository.TripRepository.ReleaseEscrowForBooking | src/adapters/repositories/trip.repository.ts:676-694 | releases and credits a held escrow once, otherwise returns 0 and changes nothing |
| TripRepository.TripRepository.RefundAndCancelBookings | src/adapters/repositories/trip.repository.ts:229-288 | the refund loop computes the specified bookings, refunds and failure list, row by row |
| TripRepository.TripRepository.CancelBooking | src/adapters/repositories/trip.repository.ts:1252-1312 | succeeds if and only if the passenger's own booking can be cancelled, and then changes that row, its refund and its seats alone |
| TripRepository.DriverService.WithdrawBookings | src/modules/driver/services/driver.service.ts:520-552 | the driver module's loop cancels every open booking and marks the held escrows of the paid ones refunded |
| TripRepository.DriverService.SettleTripBookings | src/modules/driver/services/driver.service.ts:815-832 | the driver module's completion loop completes exactly the confirmed and paid bookings |
| TripRepository.PaymentService.VerifyPayment | src/modules/passenger/services/payment.service.ts:132-305 | a verified payment of a pending intent yields one confirmed booking of that intent and one held escrow of the full fare less the percentage; every other outcome writes no booking |
| TripRepository.PaymentService.InitiatePayment | src/modules/passenger/services/payment.service.ts:49-126 | adds a payment only for the passenger's own pending, unexpired intent; a retried coupon and the new row survive a throw of the gateway; the ledger invariant is kept |
| Pricing.LeastUnits | src/adapters/repositories/trip.repository.ts:1165-1172 | luggage is charged for the least whole number of units covering the weight |
| Pricing.QuoteExplained | src/adapters/repositories/trip.repository.ts:1160-1177 | an accepted total is the seats at the trip's price plus the fewest units at the luggage charge; what is paid is the rest after the coupon's discount |
| Pricing.CouponAccepted | src/adapters/repositories/trip.repository.ts:1709-1722 | a code is accepted if and only if there is none, or its coupon is active, not expired, not used up and the order large enough; the case of the code does not matter |
| Pricing.DiscountIsLargest | src/adapters/repositories/trip.repository.ts:1724-1730 | the discount is the largest amount within the percentage or value, the cap and the subtotal |
| Pricing.QuoteAddsUp | src/adapters/repositories/trip.repository.ts:1174-1177 | 0 <= discount <= total and paid + discount = total for every accepted order, so max(0, ..) never bites |
| Pricing.PaidMonotone | src/adapters/repositories/trip.repository.ts:1704-1730 | for one trip and coupon, more seats or heavier bags never cost less, percentages above 100 and caps included |
| KillSwitch.AuditReplay | src/modules/kill-switch/kill-switch.service.ts:71-236 | after every run of the five mutators, replaying the audit log rebuilds isActive and killedServices, in order and without duplicates |
| KillSwitch.LastWord | src/modules/kill-switch/kill-switch.service.ts:152-161 | a service is killed if and only if some logged event kills it and no later one lifts it |
| KillSwitch.ActivateWrites | src/modules/kill-switch/kill-switch.service.ts:71-99 | refused exactly when all is down already; else active, empty list, every service killed, one global activation event with its actor, time and reason |
| KillSwitch.DeactivateWrites | src/modules/kill-switch/kill-switch.service.ts:101-127 | refused exactly when off; else inactive, empty list, no service killed, one global deactivation event |
| KillSwitch.KillServiceWrites | src/modules/kill-switch/kill-switch.service.ts:135-167 | refused exactly when the service is listed; else it alone is added, the switch stays, and the event names it with the given or the default reason |
| KillSwitch.RestoreServiceWrites | src/modules/kill-switch/kill-switch.service.ts:172-202 | refused exactly when the service is not listed; else it alone is removed, the switch stays, and the event names it |
| KillSwitch.KillMultipleWrites | src/modules/kill-switch/kill-switch.service.ts:207-236 | never refused; all names are added, the switch stays, and the event lists them |
| KillSwitch.StatusesAgree | src/modules/kill-switch/kill-switch.service.ts:258-270 | the status board agrees with isServiceKilled on every known service, for every record and for a missing one |
| KillSwitch.KillingOne | src/modules/kill-switch/kill-switch.service.ts:135-167 | killing one service changes the others if and only if the global switch is on with no service listed: they all come back |
| KillSwitch.KillingMany | src/modules/kill-switch/kill-switch.service.ts:207-236 | so does killing several: an unnamed service changes if and only if the global switch is on with no service listed and at least one is named |
| KillSwitch.RestoringOne | src/modules/kill-switch/kill-switch.service.ts:172-202 | restoring one service changes the others, and leaves itself killed, if and only if it was the last listed one under the global switch |
| KillSwitch.RestoreTakesAllDown | src/modules/kill-switch/kill-switch.service.ts:56-63 | a three-command run after which every service is killed |
| KillSwitchCache.ReadOrder | src/modules/kill-switch/kill-switch.service.ts:286-304 | a warm local record is returned as it stands; else a live Redis entry if Redis answers; only then the database, kept in Redis a minute; whatever is read is kept locally five seconds |
| KillSwitchCache.StaleAtMost65s | src/modules/kill-switch/kill-switch.service.ts:286-310 | however saves, local forgetting and Redis deletes interleave or get lost, a record read was the database row within the last 65 seconds |
| KillSwitchCache.StaleAtMost5s | src/modules/kill-switch/kill-switch.service.ts:95-96 | with save and delete as one step Redis never disagrees with the database and a read is at most 5 seconds old |
| KillSwitchCache.ReadsOwnWrite | src/modules/kill-switch/kill-switch.service.ts:306-310 | the writing instance reads its own write until someone saves again |
| KillSwitchService.KillSwitchService.GetCachedRecord | src/modules/kill-switch/kill-switch.service.ts:286-304 | the three-level read returns and caches what the specification says, with failing Redis calls |
| KillSwitchService.KillSwitchService.Activate | src/modules/kill-switch/kill-switch.service.ts:71-99 | Unauthorized exactly for a code that is not the configured one; once accepted the stored record has every service killed; refused calls save nothing |
| KillSwitchService.KillSwitchService.Deactivate | src/modules/kill-switch/kill-switch.service.ts:101-127 | Unauthorized exactly when the code or, if configured, the second code is wrong; once accepted the stored record is inactive and no service is killed |
| KillSwitchService.KillSwitchService.KillService | src/modules/kill-switch/kill-switch.service.ts:135-167 | the same for killing one service, once |
| KillSwitchService.KillSwitchService.RestoreService | src/modules/kill-switch/kill-switch.service.ts:172-202 | the same for restoring a killed service |
| KillSwitchService.KillSwitchService.KillMultipleServices | src/modules/kill-switch/kill-switch.service.ts:207-236 | the loop adds every name once, in order |
| RedisCache.RedisCache.GetOrSet | src/modules/cache/redis-cache.service.ts:74-84 | returns the live entry or the factory's value; without faults the result is what the cache then holds |
| Vault.ParsePrint | src/shared/vault/vault.ts:156-171 | parsing a printed envelope returns the same five parts |
| Vault.SlicesCoverBuffer | src/shared/vault/vault.ts:165-171 | for any buffer of at least 3 bytes the header and the four clamped slices concatenate to it, and IV and tag are whole exactly when the buffer is long enough |
| Vault.LocalRoundTrip | src/shared/vault/vault.ts:147-149 | a local-mode envelope decrypts whatever VAULT_LOCAL_KEY becomes; in vault mode if and only if VAULT_LOCAL_KEY decodes to the same key |
| Vault.VaultRoundTrip | src/shared/vault/vault.ts:111-130 | a vault-mode envelope decrypts, in either reader mode, if and only if the reader has a token and its column key is the writer's key name |
| Vault.OwnColumnKey | src/shared/vault/vault.ts:40-46 | the two key names coincide exactly when the column variable is unset, empty or equal to the key name |
| Vault.KeyNames | src/shared/vault/vault.ts:40-46 | unset or empty key names fall back to the default, a set column key is used as it stands |
| VaultWitnesses.OwnEnvelopeUnreadable | src/shared/vault/vault.ts:111-130 | a cipher meeting every assumption and one vault-mode environment whose envelope it cannot open itself |
| VaultWitnesses.LocalEnvelopeLost | src/shared/vault/vault.ts:173-180 | an envelope written in local mode that the same application cannot open after the switch |
| Vault.SealFails | src/shared/vault/vault.ts:152-158 | sealing fails exactly for a key that is not 32 bytes or a wrapped key over 65535 bytes |
| Vault.SealedByMode | src/shared/vault/vault.ts:135-161 | the first byte and the wrapped key of an envelope are those of the mode VAULT_ENABLED sets |
| Vault.HexRoundTrip | src/shared/vault/vault.ts:48-53 | decoding the hexadecimal spelling of any bytes, in either case, gives those bytes |
| Vault.LocalKeyBytes | src/shared/vault/vault.ts:48-53 | the local key is the 32 bytes its 64 digits spell, and any other length is refused |
| Vault.VaultEncrypt | src/shared/vault/vault.ts:135-161 | the method, branch by branch with its header buffer, builds the specified envelope |
| Referrals.RunKeepsBooks | src/modules/agent/services/agent.service.ts:158-194 | over every run an agent's totalCommission is the sum earned over its referrals, totalReferrals their count, and no driver has two referrals |
| Referrals.CappedAccumulation | src/modules/agent/services/agent.service.ts:307-320 | under fixed settings a referral has earned exactly min(cap, n * earningPerTrip) after n eligible calls, whatever else is mixed in |
| Referrals.EarningReport | src/modules/agent/services/agent.service.ts:322-328 | newEarnedAmount + capRemaining is the cap, and referral, balance and commission move by the same positive amount |
| Referrals.EarningMoves | src/modules/agent/services/agent.service.ts:274-329 | money moves if and only if earning is on, the trip has a completed booking, the driver is referred and the cap leaves something; then by the lesser of the two, on that referral alone |
| Referrals.ReferralStored | src/modules/agent/services/agent.service.ts:158-194 | a referral is stored exactly for an unreferred stored driver by a registered agent, and starts at nothing earned |
| Referrals.AgentService.EarnFromDriversTrip | src/modules/agent/services/agent.service.ts:274-329 | the three separate writes, and every early return, end in the specified referral and agent rows |
| AppVersions.RowKeyInjective | src/modules/appversion/service/app-version.service.ts:101 | joined keys are equal only for equal pairs, because a platform has no colon |
| AppVersions.LatestIsNewest | src/modules/appversion/service/app-version.service.ts:37-40 | the row read for a key has the greatest createdAt of that key, and is missing only when the key has no row |
| AppVersions.AnyDescendingOrder | src/modules/appversion/service/app-version.service.ts:96-100 | when no two rows of a key share a creation time, every order the database may sort the table in yields the same row for the key |
| AppVersions.CacheAgreesAlways | src/modules/appversion/service/app-version.service.ts:33-79 | after every run each cache entry, expired or not, is the rendering of the latest row of its key, or a fallback when there is none |
| AppVersions.CheckKeepsAgreement | src/modules/appversion/service/app-version.service.ts:24-93 | checkVersion fails exactly on an unknown platform, and without a database fault answers from the latest row |
| AppVersions.KnownPlatforms | src/modules/appversion/service/app-version.service.ts:29-31 | a platform is refused exactly when it is neither android nor ios |
| AppVersions.AnswerFields | src/modules/appversion/service/app-version.service.ts:45-93 | past an empty cache the four fields are the latest row's, or of a disabled row only its latest version, kept 30 minutes, or the fallback's, kept one |
| AppVersions.AppVersionService.GetCurrentSettings | src/modules/appversion/service/app-version.service.ts:96-108 | the loop returns exactly one row per key, the very row checkVersion reads (ties read in one fixed order) |
| Documents.MirrorAlways | src/adapters/repositories/admin.repository.ts:1203-1339 | over every run each mirror entry has the status and URL of the row of its type last touched, and licenseVerified is the outcome of the last licence review, initially false |
| Documents.OtherEntriesUntouched | src/adapters/repositories/admin.repository.ts:971-988 | a call changes the mirror entry of no other type or driver |
| Documents.ApproveWrites | src/adapters/repositories/admin.repository.ts:1203-1268 | exactly a stored document not yet approved becomes Approved in row and mirror; a licence sets the flag and the URL; KYC completes exactly when then all the driver's documents are Approved; nothing else of any row or other driver changes |
| Documents.RejectWrites | src/adapters/repositories/admin.repository.ts:1284-1339 | any stored document becomes Rejected with the reason in row and mirror; a licence clears the flag |
| Documents.AddWrites | src/adapters/repositories/admin.repository.ts:997-1061 | a document is stored as Pending with its mirror entry, for a stored driver |
| Documents.UpdateWrites | src/adapters/repositories/admin.repository.ts:964-995 | the fields carried are stored in row and mirror, the others stay |
| Documents.LicenceTypes | src/adapters/repositories/admin.repository.ts:1270-1282 | the four licence types, in any case |
| Documents.KycHistory | src/adapters/repositories/admin.repository.ts:1341-1349 | KYC is completed if and only if, after some approval so far, all the driver's documents then present were approved; it is never revoked |
| Documents.AdminRepository.ApproveDocument | src/adapters/repositories/admin.repository.ts:1203-1268 | the row, mirror, licence and KYC writes, one after the other, end in the state the mirror results are about |
| Documents.AdminRepository.RejectDocument | src/adapters/repositories/admin.repository.ts:1284-1339 | so do the row, mirror and licence writes of a rejection |
| TripRequests.NormalizeIdempotent | src/adapters/repositories/trip-request.repository.ts:47-59 | an accepted date comes out in ISO form and normalises to itself |
| TripRequests.SpellingsAgree | src/adapters/repositories/trip-request.repository.ts:49-57 | a day-first spelling normalises to the ISO spelling of the same day if and only if month and day are in range, while the ISO spelling is always accepted |
| TripRequests.MonthThirteen | src/adapters/repositories/trip-request.repository.ts:49-57 | 2025-13-01 is accepted and 01-13-2025 is refused |
| TripRequests.PaddingIgnored | src/adapters/repositories/trip-request.repository.ts:48 | white space around a date does not matter |
| TripRequests.AtMostOnePending | src/adapters/repositories/trip-request.repository.ts:114-125 | over every run at most one pending request per requester, origin, destination and day |
| TripRequests.OtherSpellingSameRequest | src/adapters/repositories/trip-request.repository.ts:95-125 | asking again in any accepted spelling returns the pending request and stores nothing |
| TripRequests.PooledUntouched | src/adapters/repositories/trip-request.repository.ts:77-92 | no create, approve or decline changes a request whose existing pool is not expired |
| TripRequests.ApproveStores | src/adapters/repositories/trip-request.repository.ts:283-317 | accepted exactly for a pending request outside live pools and a link that exists; stores Approved, link, note, admin and time |
| TripRequests.DeclineStores | src/adapters/repositories/trip-request.repository.ts:343-375 | accepted on the same terms; stores Declined, the reason, admin and time |
| TripRequests.CreateStores | src/adapters/repositories/trip-request.repository.ts:95-151 | a new pending request is stored exactly when the day is accepted and the same wish is not pending; one seat unless told otherwise |
| TripRequests.DecidedOnce | src/adapters/repositories/trip-request.repository.ts:291-296 | a request an admin approved or declined is never approved or declined again, whatever other calls come in between |
| Paging.NextPagesAgree | src/adapters/repositories/admin.repository.ts:1889-1891 | both nextPage formulas agree on every page |
| Paging.PageChain | src/adapters/repositories/trip-request.repository.ts:388-407 | following nextPage from page 1 ends after max(1, pageCount) pages of at most limit rows whose concatenation is the whole list |
| Paging.AnyRequest | src/adapters/repositories/trip-request.repository.ts:203-205 | whatever numbers a request carries, it gets at most 100 rows, none exactly past the last page, and both nextPage formulas agree |
| Activity.Merge | src/adapters/repositories/trip.repository.ts:1679-1683 | the merge keeps one key per reason with its summed count, and the counts add up to the total |
| Activity.TripActivity | src/adapters/repositories/trip.repository.ts:1676-1690 | each value is within 0.005 of its exact percentage, so k reasons sum to 100 within 0.005 * k |

## Left out

- Concurrent calls: the code takes no lock, so two interleaved bookings or kill-switch writes may break these results.
- Rounding to two decimals in the money columns, and floating-point rounding in the price and percentage arithmetic.
- `refundBooking` in the admin repository, which has no status guard and releases no seat, and the gateway's
  `refund.processed` event, which sets REFUNDED from outside.
- Payouts, which lower and restore `currentBalance`; the balance result is about the calls modelled.
- Coupon usage counting at payment, and the columns of a trip and booking that no modelled call decides on.
- A body that carries the row's own `id`, which would make the save write another row.
- Failures of the database itself between two writes of one call, apart from unique-index violations.
- Soft deletion of stale trips, expiry of unpaid intents (no code does it), notifications, push messages and logging.
- Location search, review and dashboard queries, vehicle documents, the Dojah webhook and the history listing of versions.
- Agreement of the kill-switch guard with `isServiceKilled`: with `isActive` false the guard lets everything through.
- AES-256-GCM, Vault Transit and UTF-8 are abstract functions; "another key never opens" is the idealised assumption
  used only for the "only if" halves.
- `toLowerCase` and `toUpperCase` outside ASCII; in document types and coupon codes only ASCII letters are folded.
- Referral settings that change between calls: the cap formula is for fixed settings, the ledger result is for all.
- Documents.MirrorAlways: rejection reasons are not compared, because approval clears them in the mirror but not in the row.
- AppVersions.CacheAgreesAlways: a lost cache delete is not covered, since the entry then stays for up to 30 minutes.
