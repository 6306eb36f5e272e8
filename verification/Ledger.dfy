/**
 * The ride-booking ledger: what each call of trip.repository.ts, and the payment
 * confirmation in payment.service.ts, does to the stored rows. Calls are serialised.
 */
module Ledger {
  import opened Common
  import opened Tables
  import opened Pricing

  type Seats = n: int | 1 <= n witness 1

  datatype TripStatus = Upcoming | Active | Started | Completed | Cancelled | Closed

  datatype IntentStatus = IntentPending | Consumed | Expired

  datatype BookingStatus = BookingPending | Confirmed | BookingCancelled | BookingCompleted | BookingRefunded

  datatype PaymentStatus = Unpaid | Paid | Failed | Refunded

  datatype TicketStatus = TicketPending | Issued | Scanned | Void

  datatype EscrowStatus = Held | Released | EscrowRefunded | Disputed

  /**
   * departure and closing are the instants bookTrip parses (None when the date is unset or
   * unparsable); timeAlone is what `new Date(departureTime)` yields in cancelBooking, which is
   * None for every value of a time-only column.
   */
  datatype Trip = Trip(driver: Id, status: TripStatus, totalSeats: int, bookedSeats: int, bookingsClosed: bool,
                       departure: Option<int>, closing: Option<int>, timeAlone: Option<int>, fare: Fare)

  /** coupon is "" when no code was given. */
  datatype Intent = Intent(code: string, trip: Id, passenger: Id, seats: Seats, total: real, discount: real, paid: real,
                           coupon: string, expires: int, status: IntentStatus)

  datatype Payment = Payment(txRef: string, intent: string, amount: real, status: PaymentStatus, booking: Option<string>)

  /** The unique bookingCode stands for the row's id; reference None models a null or empty column. */
  datatype Booking = Booking(code: string, trip: Id, passenger: Id, seats: Seats, total: real, paid: real,
                             status: BookingStatus, payment: PaymentStatus, reference: Option<string>,
                             ticket: TicketStatus, token: string, cancelledByDriver: bool, refundFailed: bool)

  datatype Escrow = Escrow(booking: string, driver: Id, net: real, status: EscrowStatus)

  /** One refund the gateway accepted. */
  datatype Refund = Refund(reference: string, amount: real)

  /** balances is the drivers' currentBalance column; refunds is the gateway's own record. */
  datatype Db = Db(trips: map<Id, Trip>, intents: seq<Intent>, payments: seq<Payment>, bookings: seq<Booking>,
                   escrows: seq<Escrow>, balances: map<Id, real>, refunds: seq<Refund>)

  datatype Reply =
    | Done(credited: real, failedRefunds: seq<string>)
    | NotVerified
    | Threw(fault: Fault)

  const OK := Done(0.0, [])

  // ---- Row predicates used by findOne ----

  function PendingFor(trip: Id, passenger: Id): Intent -> bool {
    (i: Intent) => i.trip == trip && i.passenger == passenger && i.status == IntentPending
  }

  function IntentCoded(code: string): Intent -> bool { (i: Intent) => i.code == code }

  function PendingRef(txRef: string): Payment -> bool { (p: Payment) => p.txRef == txRef && p.status == Unpaid }

  function HasRef(txRef: string): Payment -> bool { (p: Payment) => p.txRef == txRef }

  function NotOf(intent: string): Payment -> bool { (p: Payment) => p.intent != intent }

  function Coded(code: string): Booking -> bool { (b: Booking) => b.code == code }

  function CodedFor(code: string, passenger: Id): Booking -> bool {
    (b: Booking) => b.code == code && b.passenger == passenger
  }

  function PaidBy(txRef: string): Booking -> bool { (b: Booking) => b.reference == Some(txRef) }

  function EscrowOf(booking: string): Escrow -> bool { (e: Escrow) => e.booking == booking }

  predicate ConfirmedOn(b: Booking, trip: Id) { b.trip == trip && b.status == Confirmed }

  predicate Open(b: Booking) { b.status == Confirmed || b.status == BookingPending }

  predicate Refundable(b: Booking) { b.payment == Paid && b.reference.Some? }

  // ---- The driver's trip calls ----

  function OwnedTrip(db: Db, driver: Option<Id>, trip: Id): bool {
    driver.Some? && trip in db.trips && db.trips[trip].driver == driver.value
  }

  function SetTrip(db: Db, id: Id, trip: Trip): Db { db.(trips := db.trips[id := trip]) }

  function OrElse<T>(v: Option<T>, default: T): T { if v.Some? then v.value else default }

  /** bookedSeats and bookingsClosed are None unless the request body carries them; createTrip spreads the body into the row. */
  datatype NewTrip = NewTrip(id: Id, capacity: Option<int>, totalSeats: Seats, departure: Option<int>, closing: Option<int>,
                             timeAlone: Option<int>, fare: Fare, bookedSeats: Option<int>, bookingsClosed: Option<bool>)

  function CreatedTrip(driver: Id, t: NewTrip): Trip {
    Trip(driver, Upcoming, t.totalSeats, OrElse(t.bookedSeats, 0), OrElse(t.bookingsClosed, false), t.departure, t.closing,
         t.timeAlone, t.fare)
  }

  /** createTrip's guards. */
  predicate Creates(db: Db, driver: Option<Id>, licenseVerified: bool, t: NewTrip) {
    && driver.Some? && driver.value in db.balances && licenseVerified && t.capacity.Some? && t.totalSeats <= t.capacity.value
    && t.id !in db.trips
  }

  /** createTrip; capacity is None when the driver has no vehicle to offer. */
  function CreateTrip(db: Db, driver: Option<Id>, licenseVerified: bool, t: NewTrip): (Db, Reply) {
    if driver.None? || driver.value !in db.balances then (db, Threw(NotFound))
    else if !licenseVerified || t.capacity.None? then (db, Threw(BadRequest))
    else if t.totalSeats > t.capacity.value then (db, Threw(BadRequest))
    else if t.id in db.trips then (db, Threw(DatabaseError))
    else (SetTrip(db, t.id, CreatedTrip(driver.value, t)), OK)
  }

  /** activateTrip (Upcoming to Active) and startTrip (Active to Started). */
  function Advance(db: Db, driver: Option<Id>, trip: Id, from: TripStatus, to: TripStatus): (Db, Reply) {
    if !OwnedTrip(db, driver, trip) then (db, Threw(NotFound))
    else if db.trips[trip].status != from then (db, Threw(BadRequest))
    else (SetTrip(db, trip, db.trips[trip].(status := to)), OK)
  }

  function SetBookingStatus(db: Db, driver: Option<Id>, trip: Id, open: bool): (Db, Reply) {
    if !OwnedTrip(db, driver, trip) then (db, Threw(NotFound))
    else if db.trips[trip].status !in {Upcoming, Active} then (db, Threw(BadRequest))
    else (SetTrip(db, trip, db.trips[trip].(bookingsClosed := !open)), OK)
  }

  /** Columns a request body may carry although its type does not declare them: the validation pipe does not strip them. */
  datatype Extra = Extra(fare: Option<Fare>, closing: Option<Option<int>>, status: Option<TripStatus>, bookedSeats: Option<int>,
                         bookingsClosed: Option<bool>, driver: Option<Id>)

  const NO_EXTRA := Extra(None, None, None, None, None, None)

  /** updateTrip's request body; capacity is None when the trip's vehicle row is gone. */
  datatype Edit = Edit(totalSeats: Option<Seats>, capacity: Option<int>, departure: Option<int>, timeAlone: Option<int>, extra: Extra)

  predicate FitsVehicle(e: Edit) { e.totalSeats.Some? && e.capacity.Some? ==> e.totalSeats.value <= e.capacity.value }

  /** Object.assign(trip, dto). */
  function Edited(t: Trip, e: Edit): Trip {
    Trip(OrElse(e.extra.driver, t.driver), OrElse(e.extra.status, t.status), OrElse(e.totalSeats, t.totalSeats),
         OrElse(e.extra.bookedSeats, t.bookedSeats), OrElse(e.extra.bookingsClosed, t.bookingsClosed), e.departure,
         OrElse(e.extra.closing, t.closing), e.timeAlone, OrElse(e.extra.fare, t.fare))
  }

  predicate HasConfirmed(bookings: seq<Booking>, trip: Id) {
    exists i :: 0 <= i < |bookings| && ConfirmedOn(bookings[i], trip)
  }

  /** updateTrip's guards, and the foreign key on the driver. */
  predicate Updates(db: Db, driver: Option<Id>, trip: Id, e: Edit) {
    && OwnedTrip(db, driver, trip) && !HasConfirmed(db.bookings, trip) && FitsVehicle(e)
    && (e.extra.driver.Some? ==> e.extra.driver.value in db.balances)
  }

  function UpdateTrip(db: Db, driver: Option<Id>, trip: Id, e: Edit): (Db, Reply) {
    if !OwnedTrip(db, driver, trip) then (db, Threw(NotFound))
    else if HasConfirmed(db.bookings, trip) then (db, Threw(BadRequest))
    else if !FitsVehicle(e) then (db, Threw(BadRequest))
    else if e.extra.driver.Some? && e.extra.driver.value !in db.balances then (db, Threw(DatabaseError))
    else (SetTrip(db, trip, Edited(db.trips[trip], e)), OK)
  }

  /**
   * What the driver module's updateTrip is given: whether its date and price checks pass, the columns that change, and, when
   * seats or vehicle change, the capacity of the vehicle found.
   */
  datatype Revision = Revision(valid: bool, seatsOrVehicle: bool, totalSeats: Option<Seats>, capacity: Option<int>,
                               departure: Option<Option<int>>, closing: Option<Option<int>>, timeAlone: Option<Option<int>>,
                               fare: Option<Fare>)

  function Revised(t: Trip, r: Revision): Trip {
    t.(totalSeats := if r.seatsOrVehicle then OrElse(r.totalSeats, t.totalSeats) else t.totalSeats,
       departure := OrElse(r.departure, t.departure), closing := OrElse(r.closing, t.closing),
       timeAlone := OrElse(r.timeAlone, t.timeAlone), fare := OrElse(r.fare, t.fare))
  }

  function ReviseTrip(db: Db, driver: Option<Id>, trip: Id, r: Revision): (Db, Reply) {
    if !OwnedTrip(db, driver, trip) then (db, Threw(NotFound))
    else if db.trips[trip].status != Upcoming || HasConfirmed(db.bookings, trip) || !r.valid then (db, Threw(BadRequest))
    else
      var t := Revised(db.trips[trip], r);
      if r.seatsOrVehicle && r.capacity.None? then (db, Threw(NotFound))
      else if r.seatsOrVehicle && (t.totalSeats < t.bookedSeats || t.totalSeats > r.capacity.value) then (db, Threw(BadRequest))
      else (SetTrip(db, trip, t), OK)
  }

  function CompletedRow(trip: Id): Booking -> Booking {
    (b: Booking) => if ConfirmedOn(b, trip) then b.(status := BookingCompleted) else b
  }

  function CompleteTrip(db: Db, driver: Option<Id>, trip: Id): (Db, Reply) {
    if !OwnedTrip(db, driver, trip) then (db, Threw(NotFound))
    else if db.trips[trip].status !in {Active, Started} then (db, Threw(BadRequest))
    else
      (SetTrip(db, trip, db.trips[trip].(status := Completed)).(bookings := MapRows(db.bookings, CompletedRow(trip))), OK)
  }

  // ---- Booking a seat ----

  datatype Order = Order(trip: Id, passenger: Option<Id>, seats: Seats, weights: seq<real>, coupon: string,
                         code: string, reference: string)

  /**
   * What a bookTrip call meets: the clock, the coupon table, whether the seat re-read still shows
   * the count from before the released hold, whether the call runs inside a transaction, and
   * whether the gateway starts the payment.
   */
  datatype Setting = Setting(now: int, coupons: map<string, Coupon>, stale: bool, transactional: bool, gatewayOk: bool)

  function AddBooked(db: Db, trip: Id, seats: int): Db {
    if trip in db.trips then SetTrip(db, trip, db.trips[trip].(bookedSeats := db.trips[trip].bookedSeats + seats)) else db
  }

  function SubBooked(db: Db, trip: Id, seats: int): Db { AddBooked(db, trip, -seats) }

  /** Drops the passenger's pending intent on the trip, its payments and its seat hold. */
  function ReleaseHold(db: Db, trip: Id, passenger: Id): Db {
    var i := IndexOf(db.intents, PendingFor(trip, passenger));
    if i < 0 then db
    else
      SubBooked(db, trip, db.intents[i].seats).(
        payments := Filter(db.payments, NotOf(db.intents[i].code)),
        intents := RemoveAt(db.intents, i))
  }

  function HoldSeats(db: Db, o: Order, passenger: Id, quote: Quote, now: int): Db {
    AddBooked(db, o.trip, o.seats).(intents := db.intents +
      [Intent(o.code, o.trip, passenger, o.seats, quote.total, quote.discount, quote.paid, o.coupon, now + 30 * 60 * 1000,
              IntentPending)])
  }

  function BookTrip(db: Db, o: Order, s: Setting): (Db, Reply) {
    if o.trip !in db.trips then (db, Threw(NotFound))
    else
      var trip := db.trips[o.trip];
      if trip.bookingsClosed then (db, Threw(BadRequest))
      else if trip.departure.Some? && trip.departure.value <= s.now then (db, Threw(BadRequest))
      else if trip.closing.Some? && trip.closing.value <= s.now then (db, Threw(BadRequest))
      else if o.passenger.None? then (db, Threw(NotFound))
      else BookSeats(db, ReleaseHold(db, o.trip, o.passenger.value), o, s)
  }

  /** bookTrip once the old hold is gone; a throw keeps what was written unless a transaction undoes it. */
  function BookSeats(db: Db, freed: Db, o: Order, s: Setting): (Db, Reply)
    requires o.passenger.Some? && o.trip in db.trips && o.trip in freed.trips
  {
    var (staged, reply) := Stage(freed, db.trips[o.trip], o, s);
    (if reply.Threw? && s.transactional then db else staged, reply)
  }

  /** The seat check, on the row read `before` the release if the re-read is stale, then price, hold and payment. */
  function Stage(freed: Db, before: Trip, o: Order, s: Setting): (Db, Reply)
    requires o.passenger.Some? && o.trip in freed.trips
  {
    var seen := if s.stale then before else freed.trips[o.trip];
    if o.seats > seen.totalSeats - seen.bookedSeats then (freed, Threw(BadRequest))
    else
      match QuoteOrder(before.fare, o.seats, o.weights, s.coupons, o.coupon, s.now)
      case Failure(e) => (freed, Threw(e))
      case Success(quote) =>
        if IndexOf(freed.intents, IntentCoded(o.code)) >= 0 then (freed, Threw(DatabaseError))
        else
          var held := HoldSeats(freed, o, o.passenger.value, quote, s.now);
          if IndexOf(held.payments, HasRef(o.reference)) >= 0 then (held, Threw(DatabaseError))
          else
            var staged := held.(payments := held.payments + [Payment(o.reference, o.code, quote.paid, Unpaid, None)]);
            (staged, if s.gatewayOk then OK else Threw(GatewayDown))
  }

  /** The coupon service's applyCoupon: the same terms as bookTrip's, but a refused code is no discount. */
  function LenientDiscount(coupons: map<string, Coupon>, code: string, subtotal: real, now: int): real {
    match ApplyCoupon(coupons, code, subtotal, now) case Success(d) => d case Failure(_) => 0.0
  }

  /** A coupon that gave no discount when the intent was made is tried once more. */
  function Repriced(i: Intent, coupons: map<string, Coupon>, now: int): Intent {
    var d := if i.coupon != "" && i.discount == 0.0 then LenientDiscount(coupons, i.coupon, i.total, now) else 0.0;
    if d > 0.0 then i.(discount := d, paid := Max(i.total - d, 0.0)) else i
  }

  /**
   * initiatePayment: another payment row for a pending intent, under a fresh reference. No transaction surrounds it,
   * so the new price and the payment row stay when a later line throws.
   */
  function InitiatePayment(db: Db, passenger: Option<Id>, intent: string, reference: string, now: int,
                           coupons: map<string, Coupon>, gatewayOk: bool): (Db, Reply)
  {
    var i := IndexOf(db.intents, IntentCoded(intent));
    if passenger.None? || i < 0 then (db, Threw(NotFound))
    else if db.intents[i].passenger != passenger.value then (db, Threw(Forbidden))
    else if db.intents[i].status != IntentPending || db.intents[i].expires <= now then (db, Threw(BadRequest))
    else if db.intents[i].trip !in db.trips then (db, Threw(NotFound))
    else
      var row := Repriced(db.intents[i], coupons, now);
      var priced := db.(intents := db.intents[i := row]);
      if IndexOf(db.payments, HasRef(reference)) >= 0 then (priced, Threw(DatabaseError))
      else
        (priced.(payments := db.payments + [Payment(reference, intent, row.paid, Unpaid, None)]),
         if gatewayOk then OK else Threw(GatewayDown))
  }

  // ---- Payment confirmed ----

  /** The gateway's answer to verifyPayment: a throw, or its status and the amount it took. */
  datatype Verdict = Unreachable | Answer(ok: bool, amount: real)

  function NetFare(total: real, feePercent: real): real { total - total * feePercent / 100.0 }

  function SettlePayment(p: Payment, booking: string): Payment { p.(status := Paid, booking := Some(booking)) }

  function VerifyPayment(db: Db, reference: string, v: Verdict, token: string, feePercent: real): (Db, Reply) {
    var p := IndexOf(db.payments, PendingRef(reference));
    if p < 0 then (db, NotVerified)
    else
      var known := IndexOf(db.bookings, PaidBy(reference));
      if known >= 0 then
        (db.(payments := db.payments[p := SettlePayment(db.payments[p], db.bookings[known].code)]), OK)
      else
        var i := IndexOf(db.intents, IntentCoded(db.payments[p].intent));
        if i < 0 || db.intents[i].status != IntentPending then (db, NotVerified)
        else if v.Unreachable? || !v.ok || v.amount < db.payments[p].amount then (db, NotVerified)
        // a unique-index violation or a missing trip aborts the transaction
        else if IndexOf(db.bookings, Coded(db.intents[i].code)) >= 0 || db.intents[i].trip !in db.trips then (db, NotVerified)
        else (Confirm(db, p, i, reference, token, feePercent), OK)
  }

  function NewBooking(intent: Intent, reference: string, token: string): Booking {
    Booking(intent.code, intent.trip, intent.passenger, intent.seats, intent.total, intent.paid,
            Confirmed, Paid, Some(reference), TicketPending, token, false, false)
  }

  function Confirm(db: Db, p: nat, i: nat, reference: string, token: string, feePercent: real): Db
    requires p < |db.payments| && i < |db.intents| && db.intents[i].trip in db.trips
  {
    var intent := db.intents[i];
    db.(payments := db.payments[p := SettlePayment(db.payments[p], intent.code)],
        intents := db.intents[i := intent.(status := Consumed)],
        bookings := db.bookings + [NewBooking(intent, reference, token)],
        escrows := db.escrows + [Escrow(intent.code, db.trips[intent.trip].driver, NetFare(intent.total, feePercent), Held)])
  }

  // ---- Boarding ----

  /** scanTicket; token is None for verifyBookingByCode, which asks for no ticket token. */
  function Board(db: Db, driver: Option<Id>, code: string, token: Option<string>): (Db, Reply) {
    var i := IndexOf(db.bookings, Coded(code));
    if driver.None? || i < 0 then (db, Threw(NotFound))
    else
      var b := db.bookings[i];
      if !OwnedTrip(db, driver, b.trip) then (db, Threw(Forbidden))
      else if token.Some? && (b.token == "" || b.token != token.value) then (db, Threw(BadRequest))
      else if b.payment != Paid || b.status != Confirmed then (db, Threw(BadRequest))
      else if b.ticket == Scanned then (db, OK)
      else ReleaseEscrow(db.(bookings := db.bookings[i := b.(ticket := Scanned)]), code)
  }

  function ReleaseEscrow(db: Db, code: string): (Db, Reply) {
    var i := IndexOf(db.escrows, EscrowOf(code));
    if i < 0 || db.escrows[i].status != Held then (db, OK)
    else
      var e := db.escrows[i];
      (db.(escrows := db.escrows[i := e.(status := Released)],
           balances := if e.driver in db.balances then db.balances[e.driver := db.balances[e.driver] + e.net] else db.balances),
       Done(e.net, []))
  }

  // ---- Cancelling ----

  /** cancelBooking; refundOk says whether the gateway call returns or throws. */
  function CancelBooking(db: Db, passenger: Option<Id>, code: string, now: int, refundOk: bool): (Db, Reply) {
    if passenger.None? then (db, Threw(NotFound))
    else
      var i := IndexOf(db.bookings, CodedFor(code, passenger.value));
      if i < 0 then (db, Threw(NotFound))
      else
        var b := db.bookings[i];
        if !Open(b) then (db, Threw(BadRequest))
        else if TooLate(db, b.trip, now) then (db, Threw(BadRequest))
        else if Refundable(b) && !refundOk then (db, Threw(BadRequest))
        else
          var b' := b.(status := BookingCancelled, payment := if Refundable(b) then Refunded else b.payment);
          (SubBooked(db, b.trip, b.seats).(
             bookings := db.bookings[i := b'],
             refunds := if Refundable(b) then db.refunds + [Refund(b.reference.value, b.paid)] else db.refunds), OK)
  }

  /** The two-hour window, which only bites when the departure time alone parses as a date. */
  predicate TooLate(db: Db, trip: Id, now: int) {
    trip in db.trips && db.trips[trip].timeAlone.Some? && db.trips[trip].timeAlone.value - now < 2 * 60 * 60 * 1000
  }

  /** What cancelTrip's loop makes of one row; fails says whether its refund call throws. */
  function DriverCancelled(b: Booking, trip: Id, fails: bool): Booking {
    if b.trip != trip || !Open(b) then b
    else
      b.(status := BookingCancelled, cancelledByDriver := true,
         payment := if Refundable(b) && !fails then Refunded else b.payment,
         refundFailed := b.refundFailed || (Refundable(b) && fails))
  }

  predicate Attempted(b: Booking, trip: Id) { b.trip == trip && Open(b) && Refundable(b) }

  /** The bookings table after cancelTrip, when the refund calls of the rows in `fails` throw. */
  function CancelledRows(bookings: seq<Booking>, trip: Id, fails: set<nat>): (r: seq<Booking>)
    ensures |r| == |bookings|
    ensures forall i :: 0 <= i < |r| ==> r[i] == DriverCancelled(bookings[i], trip, i in fails)
  {
    if bookings == [] then []
    else
      var n := |bookings| - 1;
      CancelledRows(bookings[..n], trip, fails) + [DriverCancelled(bookings[n], trip, n in fails)]
  }

  function NewRefund(b: Booking, trip: Id, fails: bool): seq<Refund> {
    if Attempted(b, trip) && !fails then [Refund(b.reference.value, b.paid)] else []
  }

  function NewFailure(b: Booking, trip: Id, fails: bool): seq<string> {
    if Attempted(b, trip) && fails then [b.code] else []
  }

  /** The refunds accepted for the first n rows, in order. */
  function RefundsMade(bookings: seq<Booking>, trip: Id, fails: set<nat>, n: nat): seq<Refund>
    requires n <= |bookings|
  {
    if n == 0 then []
    else
      RefundsMade(bookings, trip, fails, n - 1) + NewRefund(bookings[n - 1], trip, (n - 1) in fails)
  }

  /** The codes of the first n rows whose refund call threw, in order. */
  function FailedCodes(bookings: seq<Booking>, trip: Id, fails: set<nat>, n: nat): seq<string>
    requires n <= |bookings|
  {
    if n == 0 then []
    else
      FailedCodes(bookings, trip, fails, n - 1) + NewFailure(bookings[n - 1], trip, (n - 1) in fails)
  }

  function CancelTrip(db: Db, driver: Option<Id>, trip: Id, fails: set<nat>): (Db, Reply) {
    if !OwnedTrip(db, driver, trip) then (db, Threw(NotFound))
    else if db.trips[trip].status !in {Upcoming, Active, Started} then (db, Threw(BadRequest))
    else
      var n := |db.bookings|;
      (SetTrip(db, trip, db.trips[trip].(status := Cancelled)).(
         bookings := CancelledRows(db.bookings, trip, fails),
         refunds := db.refunds + RefundsMade(db.bookings, trip, fails, n)),
       Done(0.0, FailedCodes(db.bookings, trip, fails, n)))
  }

  // ---- The driver module's own ways to end a trip (driver.service.ts) ----

  predicate Withdraws(b: Booking, trip: Id) { b.trip == trip && Open(b) }

  function WithdrawnRow(trip: Id): Booking -> Booking {
    (b: Booking) => if Withdraws(b, trip) then b.(status := BookingCancelled, cancelledByDriver := true) else b
  }

  /** processRefund: marks a held escrow refunded; no gateway call is made. */
  function RefundEscrow(escrows: seq<Escrow>, code: string): (r: seq<Escrow>)
    ensures |r| == |escrows|
  {
    var i := IndexOf(escrows, EscrowOf(code));
    if i < 0 || escrows[i].status != Held then escrows else escrows[i := escrows[i].(status := EscrowRefunded)]
  }

  /** The escrows after the loop has passed the first n bookings. */
  function RefundEscrows(escrows: seq<Escrow>, bookings: seq<Booking>, trip: Id, n: nat): (r: seq<Escrow>)
    requires n <= |bookings|
    ensures |r| == |escrows|
  {
    if n == 0 then escrows
    else
      var before := RefundEscrows(escrows, bookings, trip, n - 1);
      var b := bookings[n - 1];
      if Withdraws(b, trip) && b.payment == Paid then RefundEscrow(before, b.code) else before
  }

  /** driver.service's cancelTrip; reasonGiven says whether the reason is more than white space. */
  function WithdrawTrip(db: Db, driver: Option<Id>, trip: Id, reasonGiven: bool): (Db, Reply) {
    if !OwnedTrip(db, driver, trip) then (db, Threw(NotFound))
    else if db.trips[trip].status !in {Upcoming, Active, Started} || !reasonGiven then (db, Threw(BadRequest))
    else
      (SetTrip(db, trip, db.trips[trip].(status := Cancelled)).(
         bookings := MapRows(db.bookings, WithdrawnRow(trip)),
         escrows := RefundEscrows(db.escrows, db.bookings, trip, |db.bookings|)), OK)
  }

  function SettledRow(trip: Id): Booking -> Booking {
    (b: Booking) => if ConfirmedOn(b, trip) && b.payment == Paid then b.(status := BookingCompleted) else b
  }

  /** driver.service's completeTrip: only paid bookings are completed. */
  function SettleTrip(db: Db, driver: Option<Id>, trip: Id): (Db, Reply) {
    if !OwnedTrip(db, driver, trip) then (db, Threw(NotFound))
    else if db.trips[trip].status !in {Active, Started} then (db, Threw(BadRequest))
    else
      (SetTrip(db, trip, db.trips[trip].(status := Completed)).(bookings := MapRows(db.bookings, SettledRow(trip))), OK)
  }

  // ---- When the calls are accepted, in terms of the state before ----

  /** cancelTrip's guards; the driver module's also ask for a reason. */
  predicate CancelsTrip(db: Db, driver: Option<Id>, trip: Id) {
    OwnedTrip(db, driver, trip) && db.trips[trip].status in {Upcoming, Active, Started}
  }

  /** cancelBooking's guards, with the gateway's answer to the refund. */
  predicate CancelsBooking(db: Db, passenger: Option<Id>, code: string, now: int, refundOk: bool) {
    && passenger.Some?
    && var i := IndexOf(db.bookings, CodedFor(code, passenger.value));
       i >= 0 && var b := db.bookings[i];
       Open(b) && !TooLate(db, b.trip, now) && (Refundable(b) ==> refundOk)
  }

  /** verifyPayment reaches the writes: the intent is pending, the gateway took enough, and nothing stands in the way. */
  predicate Confirms(db: Db, reference: string, v: Verdict) {
    var p := IndexOf(db.payments, PendingRef(reference));
    p >= 0 && IndexOf(db.bookings, PaidBy(reference)) < 0 &&
    var i := IndexOf(db.intents, IntentCoded(db.payments[p].intent));
    && i >= 0 && db.intents[i].status == IntentPending
    && v.Answer? && v.ok && v.amount >= db.payments[p].amount
    && IndexOf(db.bookings, Coded(db.intents[i].code)) < 0 && db.intents[i].trip in db.trips
  }

  // ---- Runs ----

  datatype Call =
    | Create(driver: Option<Id>, licenseVerified: bool, newTrip: NewTrip)
    | Activate(driver: Option<Id>, trip: Id)
    | Start(driver: Option<Id>, trip: Id)
    | Toggle(driver: Option<Id>, trip: Id, open: bool)
    | Update(driver: Option<Id>, trip: Id, edit: Edit)
    | Revise(driver: Option<Id>, trip: Id, revision: Revision)
    | Book(order: Order, setting: Setting)
    | Pay(passenger: Option<Id>, intent: string, reference: string, now: int, coupons: map<string, Coupon>, gatewayOk: bool)
    | Verify(reference: string, verdict: Verdict, newToken: string, feePercent: real)
    | Scan(driver: Option<Id>, code: string, token: Option<string>)
    | Complete(driver: Option<Id>, trip: Id)
    | CancelAll(driver: Option<Id>, trip: Id, fails: set<nat>)
    | CancelOne(passenger: Option<Id>, code: string, now: int, refundOk: bool)
    | Withdraw(driver: Option<Id>, trip: Id, reasonGiven: bool)
    | Settle(driver: Option<Id>, trip: Id)

  function Step(db: Db, c: Call): (Db, Reply) {
    match c
    case Create(d, v, t) => CreateTrip(db, d, v, t)
    case Activate(d, t) => Advance(db, d, t, Upcoming, Active)
    case Start(d, t) => Advance(db, d, t, Active, Started)
    case Toggle(d, t, open) => SetBookingStatus(db, d, t, open)
    case Update(d, t, e) => UpdateTrip(db, d, t, e)
    case Revise(d, t, r) => ReviseTrip(db, d, t, r)
    case Book(o, s) => BookTrip(db, o, s)
    case Pay(p, i, r, now, coupons, ok) => InitiatePayment(db, p, i, r, now, coupons, ok)
    case Verify(r, v, tok, fee) => VerifyPayment(db, r, v, tok, fee)
    case Scan(d, code, tok) => Board(db, d, code, tok)
    case Complete(d, t) => CompleteTrip(db, d, t)
    case CancelAll(d, t, fails) => CancelTrip(db, d, t, fails)
    case CancelOne(p, code, now, ok) => CancelBooking(db, p, code, now, ok)
    case Withdraw(d, t, reason) => WithdrawTrip(db, d, t, reason)
    case Settle(d, t) => SettleTrip(db, d, t)
  }

  /** The state after the calls in order; every call starts from what the previous one left. */
  function Run(db: Db, calls: seq<Call>): Db {
    if calls == [] then db else Step(Run(db, calls[..|calls| - 1]), calls[|calls| - 1]).0
  }

  /** Registered drivers with their opening balances, and nothing booked yet. */
  function Fresh(balances: map<Id, real>): Db { Db(map[], [], [], [], [], balances, []) }
}
