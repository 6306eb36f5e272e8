/**
 * The ledger calls in the source's own form: methods that update stored rows in place.
 * Each is proved to do exactly what its specification in module Ledger says.
 */
module TripRepository {
  import opened Common
  import opened Tables
  import opened Pricing
  import opened Ledger
  import LedgerCalls
  import LedgerOrders
  import LedgerRuns
  import LedgerSeats

  /** The stored tables, the drivers' balances and the refunds the gateway accepted. */
  class Database {
    var trips: map<Id, Trip>
    var intents: seq<Intent>
    var payments: seq<Payment>
    var bookings: seq<Booking>
    var escrows: seq<Escrow>
    var balances: map<Id, real>
    var refunds: seq<Refund>
    /** The drivers' balances when the database was set up. */
    ghost const opening: map<Id, real>

    constructor (balances: map<Id, real>)
      ensures State() == Fresh(balances) && Valid()
    {
      trips, intents, payments, bookings, escrows, refunds := map[], [], [], [], [], [];
      this.balances := balances;
      opening := balances;
      new;
      LedgerRuns.FreshInv(balances);
    }

    /** The money invariant: escrows, balances and refunds all add up, whatever the request bodies carry. */
    ghost predicate MoneyValid()
      reads this
    {
      LedgerRuns.MoneyInv(opening, State())
    }

    /** The whole ledger invariant: seats too. */
    ghost predicate Valid()
      reads this
    {
      LedgerRuns.Inv(opening, State())
    }

    function State(): Db
      reads this
    {
      Db(trips, intents, payments, bookings, escrows, balances, refunds)
    }

    /** What the surrounding transaction does with a throw. */
    method Rollback(saved: Db)
      modifies this
      ensures State() == saved
    {
      trips, intents, payments := saved.trips, saved.intents, saved.payments;
      bookings, escrows, balances, refunds := saved.bookings, saved.escrows, saved.balances, saved.refunds;
    }

    /** manager.increment(Trip, { id }, 'bookedSeats', seats); no row, no effect. */
    method Increment(trip: Id, seats: int)
      modifies this`trips
      ensures State() == AddBooked(old(State()), trip, seats)
    {
      if trip in trips {
        trips := trips[trip := trips[trip].(bookedSeats := trips[trip].bookedSeats + seats)];
      }
    }
  }

  /** The bookings table when cancelTrip's loop has passed the first n rows. */
  ghost function CancelledUpTo(bookings: seq<Booking>, trip: Id, fails: set<nat>, n: nat): (r: seq<Booking>)
    requires n <= |bookings|
    ensures |r| == |bookings|
  {
    CancelledRows(bookings[..n], trip, fails) + bookings[n..]
  }

  lemma CancelledNone(bookings: seq<Booking>, earlier: seq<Refund>, trip: Id, fails: set<nat>)
    ensures CancelledUpTo(bookings, trip, fails, 0) == bookings
    ensures earlier + RefundsMade(bookings, trip, fails, 0) == earlier
    ensures FailedCodes(bookings, trip, fails, 0) == []
  {
  }

  lemma CancelOneMore(bookings: seq<Booking>, earlier: seq<Refund>, trip: Id, fails: set<nat>, n: nat)
    requires n < |bookings|
    ensures var before := CancelledUpTo(bookings, trip, fails, n);
            && before[n] == bookings[n]
            && before[n := DriverCancelled(bookings[n], trip, n in fails)] == CancelledUpTo(bookings, trip, fails, n + 1)
    ensures earlier + RefundsMade(bookings, trip, fails, n) + NewRefund(bookings[n], trip, n in fails)
            == earlier + RefundsMade(bookings, trip, fails, n + 1)
    ensures FailedCodes(bookings, trip, fails, n + 1)
            == FailedCodes(bookings, trip, fails, n) + NewFailure(bookings[n], trip, n in fails)
  {
    assert bookings[..n + 1][..n] == bookings[..n];
  }

  lemma CancelledAll(bookings: seq<Booking>, trip: Id, fails: set<nat>)
    ensures CancelledUpTo(bookings, trip, fails, |bookings|) == CancelledRows(bookings, trip, fails)
  {
    assert bookings[..|bookings|] == bookings;
  }

  /** The calls whose methods are proved in two parts. */
  lemma StepIs(before: Db, c: Call)
    ensures c.Book? ==> Step(before, c) == Ledger.BookTrip(before, c.order, c.setting)
    ensures c.CancelOne? ==> Step(before, c) == Ledger.CancelBooking(before, c.passenger, c.code, c.now, c.refundOk)
    ensures c.Verify? ==> Step(before, c) == Ledger.VerifyPayment(before, c.reference, c.verdict, c.newToken, c.feePercent)
  {
  }

  lemma StaysValid(opening: map<Id, real>, before: Db, c: Call)
    ensures LedgerRuns.Inv(opening, before) ==> (LedgerRuns.Inv(opening, Step(before, c).0) <==> !LedgerSeats.Miscounts(before, c))
    ensures LedgerRuns.MoneyInv(opening, before) ==> LedgerRuns.MoneyInv(opening, Step(before, c).0)
  {
    hide LedgerRuns.Inv, LedgerRuns.MoneyInv, Step, LedgerSeats.Miscounts;
    if LedgerRuns.Inv(opening, before) {
      LedgerRuns.StepKeepsInv(opening, before, c);
    }
    if LedgerRuns.MoneyInv(opening, before) {
      LedgerRuns.StepKeepsMoney(opening, before, c);
    }
  }

  class TripRepository {
    const db: Database

    constructor (db: Database)
      ensures this.db == db
    {
      this.db := db;
    }

    method CreateTrip(driver: Option<Id>, licenseVerified: bool, t: NewTrip) returns (reply: Reply)
      modifies db
      ensures (db.State(), reply) == Ledger.CreateTrip(old(db.State()), driver, licenseVerified, t)
      ensures old(db.Valid()) ==> (db.Valid() <==> !LedgerSeats.Miscounts(old(db.State()), Create(driver, licenseVerified, t)))
      ensures old(db.MoneyValid()) ==> db.MoneyValid()
      ensures db.State() == old(db.State()).(trips := db.trips)
    {
      hide LedgerRuns.Inv, LedgerRuns.MoneyInv;
      StaysValid(db.opening, db.State(), Create(driver, licenseVerified, t));
      if driver.None? || driver.value !in db.balances { return Threw(NotFound); }
      if !licenseVerified || t.capacity.None? || t.totalSeats > t.capacity.value { return Threw(BadRequest); }
      if t.id in db.trips { return Threw(DatabaseError); }
      db.trips := db.trips[t.id := CreatedTrip(driver.value, t)];
      return OK;
    }

    method ActivateTrip(driver: Option<Id>, trip: Id) returns (reply: Reply)
      modifies db
      ensures (db.State(), reply) == Step(old(db.State()), Activate(driver, trip))
      ensures old(db.Valid()) ==> db.Valid()
      ensures db.State() == old(db.State()).(trips := db.trips)
    {
      hide LedgerRuns.Inv, LedgerRuns.MoneyInv;
      StaysValid(db.opening, db.State(), Activate(driver, trip));
      if !OwnedTrip(db.State(), driver, trip) { return Threw(NotFound); }
      if db.trips[trip].status != Upcoming { return Threw(BadRequest); }
      db.trips := db.trips[trip := db.trips[trip].(status := Active)];
      return OK;
    }

    method StartTrip(driver: Option<Id>, trip: Id) returns (reply: Reply)
      modifies db
      ensures (db.State(), reply) == Step(old(db.State()), Start(driver, trip))
      ensures old(db.Valid()) ==> db.Valid()
      ensures db.State() == old(db.State()).(trips := db.trips)
    {
      hide LedgerRuns.Inv, LedgerRuns.MoneyInv;
      StaysValid(db.opening, db.State(), Start(driver, trip));
      if !OwnedTrip(db.State(), driver, trip) { return Threw(NotFound); }
      if db.trips[trip].status != Active { return Threw(BadRequest); }
      db.trips := db.trips[trip := db.trips[trip].(status := Started)];
      return OK;
    }

    method SetBookingStatus(driver: Option<Id>, trip: Id, open: bool) returns (reply: Reply)
      modifies db
      ensures (db.State(), reply) == Ledger.SetBookingStatus(old(db.State()), driver, trip, open)
      ensures old(db.Valid()) ==> db.Valid()
      ensures db.State() == old(db.State()).(trips := db.trips)
    {
      hide LedgerRuns.Inv, LedgerRuns.MoneyInv;
      StaysValid(db.opening, db.State(), Toggle(driver, trip, open));
      if !OwnedTrip(db.State(), driver, trip) { return Threw(NotFound); }
      if db.trips[trip].status !in {Upcoming, Active} { return Threw(BadRequest); }
      db.trips := db.trips[trip := db.trips[trip].(bookingsClosed := !open)];
      return OK;
    }

    method UpdateTrip(driver: Option<Id>, trip: Id, dto: Edit) returns (reply: Reply)
      modifies db
      ensures (db.State(), reply) == Ledger.UpdateTrip(old(db.State()), driver, trip, dto)
      ensures old(db.Valid()) ==> (db.Valid() <==> !LedgerSeats.Miscounts(old(db.State()), Update(driver, trip, dto)))
      ensures old(db.MoneyValid()) ==> db.MoneyValid()
      ensures db.State() == old(db.State()).(trips := db.trips)
    {
      hide LedgerRuns.Inv, LedgerRuns.MoneyInv;
      StaysValid(db.opening, db.State(), Update(driver, trip, dto));
      if !OwnedTrip(db.State(), driver, trip) { return Threw(NotFound); }
      if HasConfirmed(db.bookings, trip) { return Threw(BadRequest); }
      if dto.totalSeats.Some? && dto.capacity.Some? && dto.totalSeats.value > dto.capacity.value { return Threw(BadRequest); }
      if dto.extra.driver.Some? && dto.extra.driver.value !in db.balances { return Threw(DatabaseError); }
      db.trips := db.trips[trip := Edited(db.trips[trip], dto)];
      return OK;
    }

    /** Outside a transaction a throw leaves behind whatever was already written. */
    method BookTrip(o: Order, s: Setting) returns (reply: Reply)
      modifies db
      ensures (db.State(), reply) == Ledger.BookTrip(old(db.State()), o, s)
      ensures old(db.Valid()) ==> db.Valid()
      ensures LedgerOrders.Ordered(old(db.State()), db.State(), reply, o, s)
    {
      hide LedgerOrders.Ordered;
      hide LedgerRuns.Inv, LedgerRuns.MoneyInv, Step;
      StepIs(db.State(), Book(o, s));
      LedgerOrders.BookTripWrites(db.State(), o, s);
      StaysValid(db.opening, db.State(), Book(o, s));
      reply := PlaceOrder(o, s);
    }

    /** The steps of bookTrip, in the order they are taken. */
    method PlaceOrder(o: Order, s: Setting) returns (reply: Reply)
      modifies db
      ensures (db.State(), reply) == Ledger.BookTrip(old(db.State()), o, s)
    {
      var saved := db.State();
      if o.trip !in db.trips { return Threw(NotFound); }
      var trip := db.trips[o.trip];
      if trip.bookingsClosed { return Threw(BadRequest); }
      if trip.departure.Some? && trip.departure.value <= s.now { return Threw(BadRequest); }
      if trip.closing.Some? && trip.closing.value <= s.now { return Threw(BadRequest); }
      if o.passenger.None? { return Threw(NotFound); }

      ReleaseExisting(o.trip, o.passenger.value);
      reply := StageIntent(trip, o, s);
      if reply.Threw? && s.transactional {
        db.Rollback(saved);
      }
    }

    /** Drops the passenger's stale pending intent, its payments and its hold. */
    method ReleaseExisting(trip: Id, passenger: Id)
      modifies db
      ensures db.State() == ReleaseHold(old(db.State()), trip, passenger)
    {
      var existing := IndexOf(db.intents, PendingFor(trip, passenger));
      if existing >= 0 {
        db.payments := Filter(db.payments, NotOf(db.intents[existing].code));
        db.Increment(trip, -(db.intents[existing].seats as int));
        db.intents := RemoveAt(db.intents, existing);
      }
    }

    /** The seat check, the price, the new intent with its hold, and its payment. */
    method StageIntent(trip: Trip, o: Order, s: Setting) returns (reply: Reply)
      requires o.passenger.Some? && o.trip in db.trips
      modifies db
      ensures (db.State(), reply) == Stage(old(db.State()), trip, o, s)
    {
      var freshTrip := if s.stale then trip else db.trips[o.trip];
      var available := freshTrip.totalSeats - freshTrip.bookedSeats;
      if o.seats > available { return Threw(BadRequest); }
      var quoted := QuoteOrder(trip.fare, o.seats, o.weights, s.coupons, o.coupon, s.now);
      if quoted.Failure? { return Threw(quoted.error); }
      if IndexOf(db.intents, IntentCoded(o.code)) >= 0 { return Threw(DatabaseError); }
      db.intents := db.intents + [Intent(o.code, o.trip, o.passenger.value, o.seats, quoted.value.total, quoted.value.discount,
                                         quoted.value.paid, o.coupon, s.now + 30 * 60 * 1000, IntentPending)];
      db.Increment(o.trip, o.seats);
      if IndexOf(db.payments, HasRef(o.reference)) >= 0 { return Threw(DatabaseError); }
      db.payments := db.payments + [Payment(o.reference, o.code, quoted.value.paid, Unpaid, None)];
      return if s.gatewayOk then OK else Threw(GatewayDown);
    }

    method ScanTicket(driver: Option<Id>, code: string, token: string) returns (reply: Reply)
      modifies db
      ensures (db.State(), reply) == Board(old(db.State()), driver, code, Some(token))
      ensures old(db.Valid()) ==> db.Valid()
    {
      hide LedgerRuns.Inv, LedgerRuns.MoneyInv;
      StaysValid(db.opening, db.State(), Scan(driver, code, Some(token)));
      reply := BoardPassenger(driver, code, Some(token));
    }

    method VerifyBookingByCode(driver: Option<Id>, code: string) returns (reply: Reply)
      modifies db
      ensures (db.State(), reply) == Board(old(db.State()), driver, code, None)
      ensures old(db.Valid()) ==> db.Valid()
    {
      hide LedgerRuns.Inv, LedgerRuns.MoneyInv;
      StaysValid(db.opening, db.State(), Scan(driver, code, None));
      reply := BoardPassenger(driver, code, None);
    }

    /** The steps scanTicket and verifyBookingByCode share; only the former checks the token. */
    method BoardPassenger(driver: Option<Id>, code: string, token: Option<string>) returns (reply: Reply)
      modifies db
      ensures (db.State(), reply) == Board(old(db.State()), driver, code, token)
      ensures reply.Done? <==> exists i ::
                LedgerCalls.FirstCoded(old(db.bookings), i, code)
                && LedgerCalls.MayBoard(old(db.State()), driver, old(db.bookings)[i], token)
      ensures !reply.Done? ==> db.State() == old(db.State())
    {
      hide LedgerCalls.FirstCoded, LedgerCalls.MayBoard;
      LedgerCalls.BoardAccepted(db.State(), driver, code, token);
      var i := IndexOf(db.bookings, Coded(code));
      if driver.None? || i < 0 { return Threw(NotFound); }
      var booking := db.bookings[i];
      if !OwnedTrip(db.State(), driver, booking.trip) { return Threw(Forbidden); }
      if token.Some? && (booking.token == "" || booking.token != token.value) { return Threw(BadRequest); }
      if booking.payment != Paid || booking.status != Confirmed { return Threw(BadRequest); }
      if booking.ticket == Scanned { return OK; }
      db.bookings := db.bookings[i := booking.(ticket := Scanned)];
      reply := ReleaseEscrowForBooking(code);
    }

    method ReleaseEscrowForBooking(code: string) returns (reply: Reply)
      modifies db
      ensures (db.State(), reply) == ReleaseEscrow(old(db.State()), code)
    {
      var i := IndexOf(db.escrows, EscrowOf(code));
      if i < 0 || db.escrows[i].status != Held { return OK; }
      var escrow := db.escrows[i];
      db.escrows := db.escrows[i := escrow.(status := Released)];
      if escrow.driver in db.balances {
        db.balances := db.balances[escrow.driver := db.balances[escrow.driver] + escrow.net];
      }
      return Done(escrow.net, []);
    }

    method CompleteTrip(driver: Option<Id>, trip: Id) returns (reply: Reply)
      modifies db
      ensures (db.State(), reply) == Ledger.CompleteTrip(old(db.State()), driver, trip)
      ensures old(db.Valid()) ==> db.Valid()
      ensures db.State() == old(db.State()).(trips := db.trips, bookings := db.bookings)
    {
      hide LedgerRuns.Inv, LedgerRuns.MoneyInv;
      StaysValid(db.opening, db.State(), Complete(driver, trip));
      if !OwnedTrip(db.State(), driver, trip) { return Threw(NotFound); }
      if db.trips[trip].status !in {Active, Started} { return Threw(BadRequest); }
      db.trips := db.trips[trip := db.trips[trip].(status := Completed)];
      db.bookings := MapRows(db.bookings, CompletedRow(trip));
      return OK;
    }

    /** The refund loop: one gateway call per paid row, whose failure flags the row and does not stop the loop. */
    method CancelTrip(driver: Option<Id>, trip: Id, fails: set<nat>) returns (reply: Reply)
      modifies db
      ensures (db.State(), reply) == Ledger.CancelTrip(old(db.State()), driver, trip, fails)
      ensures old(db.Valid()) ==> db.Valid()
    {
      hide LedgerRuns.Inv, LedgerRuns.MoneyInv, Ledger.CreateTrip, Advance, Ledger.SetBookingStatus, Ledger.UpdateTrip, ReviseTrip;
      hide Ledger.CompleteTrip, WithdrawTrip, SettleTrip, Ledger.BookTrip;
      hide Ledger.InitiatePayment, Ledger.VerifyPayment, Board, Ledger.CancelBooking;
      hide CancelledRows, RefundsMade, FailedCodes;
      StaysValid(db.opening, db.State(), CancelAll(driver, trip, fails));
      if !OwnedTrip(db.State(), driver, trip) { return Threw(NotFound); }
      if db.trips[trip].status !in {Upcoming, Active, Started} { return Threw(BadRequest); }
      db.trips := db.trips[trip := db.trips[trip].(status := Cancelled)];
      var failedRefunds := RefundAndCancelBookings(trip, fails);
      return Done(0.0, failedRefunds);
    }

    method RefundAndCancelBookings(trip: Id, fails: set<nat>) returns (failedRefunds: seq<string>)
      modifies db`bookings, db`refunds
      ensures db.bookings == CancelledRows(old(db.bookings), trip, fails)
      ensures db.refunds == old(db.refunds) + RefundsMade(old(db.bookings), trip, fails, |old(db.bookings)|)
      ensures failedRefunds == FailedCodes(old(db.bookings), trip, fails, |old(db.bookings)|)
    {
      hide CancelledUpTo, CancelledRows, DriverCancelled, RefundsMade, FailedCodes, NewRefund, NewFailure;
      ghost var before := db.bookings;
      failedRefunds := [];
      CancelledNone(before, old(db.refunds), trip, fails);
      var i := 0;
      while i < |db.bookings|
        invariant 0 <= i <= |db.bookings| == |before|
        invariant db.bookings == CancelledUpTo(before, trip, fails, i)
        invariant db.refunds == old(db.refunds) + RefundsMade(before, trip, fails, i)
        invariant failedRefunds == FailedCodes(before, trip, fails, i)
      {
        var failed := RefundAndCancelRow(i, trip, i in fails);
        CancelOneMore(before, old(db.refunds), trip, fails, i);
        failedRefunds := failedRefunds + failed;
        i := i + 1;
      }
      CancelledAll(before, trip, fails);
    }

    /** One turn of the loop; `throws` says whether the gateway call fails. */
    method RefundAndCancelRow(i: nat, trip: Id, throws: bool) returns (failed: seq<string>)
      requires i < |db.bookings|
      modifies db`bookings, db`refunds
      ensures var b := old(db.bookings)[i];
              && db.bookings == old(db.bookings)[i := DriverCancelled(b, trip, throws)]
              && db.refunds == old(db.refunds) + NewRefund(b, trip, throws)
              && failed == NewFailure(b, trip, throws)
    {
      failed := [];
      var booking := db.bookings[i];
      if booking.trip == trip && Open(booking) {
        if Refundable(booking) {
          if !throws {
            db.refunds := db.refunds + [Refund(booking.reference.value, booking.paid)];
            booking := booking.(payment := Refunded);
          } else {
            booking := booking.(refundFailed := true);
            failed := [booking.code];
          }
        }
        booking := booking.(status := BookingCancelled, cancelledByDriver := true);
        db.bookings := db.bookings[i := booking];
      }
    }

    method CancelBooking(passenger: Option<Id>, code: string, now: int, refundOk: bool) returns (reply: Reply)
      modifies db
      ensures (db.State(), reply) == Ledger.CancelBooking(old(db.State()), passenger, code, now, refundOk)
      ensures old(db.Valid()) ==> db.Valid()
      ensures reply.Done? <==> exists i :: LedgerCalls.CancelsRow(old(db.State()), passenger, code, now, refundOk, i)
      ensures forall i :: LedgerCalls.CancelsRow(old(db.State()), passenger, code, now, refundOk, i) ==>
                LedgerCalls.CancelledRow(old(db.State()), db.State(), i)
    {
      hide LedgerCalls.CancelsRow, LedgerCalls.CancelledRow;
      hide LedgerRuns.Inv, LedgerRuns.MoneyInv, Step;
      StepIs(db.State(), CancelOne(passenger, code, now, refundOk));
      LedgerCalls.CancelBookingAccepted(db.State(), passenger, code, now, refundOk);
      StaysValid(db.opening, db.State(), CancelOne(passenger, code, now, refundOk));
      reply := CancelOwnBooking(passenger, code, now, refundOk);
    }

    /** The steps of cancelBooking: the refund comes before the row is touched. */
    method CancelOwnBooking(passenger: Option<Id>, code: string, now: int, refundOk: bool) returns (reply: Reply)
      modifies db
      ensures (db.State(), reply) == Ledger.CancelBooking(old(db.State()), passenger, code, now, refundOk)
    {
      if passenger.None? { return Threw(NotFound); }
      var i := IndexOf(db.bookings, CodedFor(code, passenger.value));
      if i < 0 { return Threw(NotFound); }
      var booking := db.bookings[i];
      if !Open(booking) { return Threw(BadRequest); }
      if TooLate(db.State(), booking.trip, now) { return Threw(BadRequest); }
      if Refundable(booking) {
        if !refundOk { return Threw(BadRequest); }
        db.refunds := db.refunds + [Refund(booking.reference.value, booking.paid)];
        booking := booking.(payment := Refunded);
      }
      booking := booking.(status := BookingCancelled);
      db.bookings := db.bookings[i := booking];
      db.Increment(booking.trip, -(booking.seats as int));
      return OK;
    }
  }

  /** The bookings table when the driver module's loop has passed the first n rows. */
  ghost function WithdrawnTo(bookings: seq<Booking>, trip: Id, n: nat): (r: seq<Booking>)
    requires n <= |bookings|
    ensures |r| == |bookings|
  {
    MapRows(bookings[..n], WithdrawnRow(trip)) + bookings[n..]
  }

  lemma WithdrawnNoneYet(bookings: seq<Booking>, escrows: seq<Escrow>, trip: Id)
    ensures WithdrawnTo(bookings, trip, 0) == bookings && RefundEscrows(escrows, bookings, trip, 0) == escrows
  {
  }

  lemma WithdrawOneMore(bookings: seq<Booking>, escrows: seq<Escrow>, trip: Id, n: nat)
    requires n < |bookings|
    ensures var rows, b := WithdrawnTo(bookings, trip, n), bookings[n];
            && rows[n] == b
            && WithdrawnTo(bookings, trip, n + 1)
               == if Withdraws(b, trip) then rows[n := b.(status := BookingCancelled, cancelledByDriver := true)] else rows
    ensures var before, b := RefundEscrows(escrows, bookings, trip, n), bookings[n];
            RefundEscrows(escrows, bookings, trip, n + 1)
            == if Withdraws(b, trip) && b.payment == Paid then RefundEscrow(before, b.code) else before
  {
    hide RefundEscrow;
    assert bookings[..n + 1][..n] == bookings[..n];
  }

  lemma WithdrawnAll(bookings: seq<Booking>, trip: Id)
    ensures WithdrawnTo(bookings, trip, |bookings|) == MapRows(bookings, WithdrawnRow(trip))
  {
    assert bookings[..|bookings|] == bookings;
  }

  /** The driver module's own cancelTrip and completeTrip. */
  class DriverService {
    const db: Database

    constructor (db: Database)
      ensures this.db == db
    {
      this.db := db;
    }

    method CancelTrip(driver: Option<Id>, trip: Id, reasonGiven: bool) returns (reply: Reply)
      modifies db
      ensures (db.State(), reply) == WithdrawTrip(old(db.State()), driver, trip, reasonGiven)
      ensures old(db.Valid()) ==> db.Valid()
    {
      hide LedgerRuns.Inv, LedgerRuns.MoneyInv, Ledger.CreateTrip, Advance, Ledger.SetBookingStatus, Ledger.UpdateTrip, ReviseTrip;
      hide Ledger.CompleteTrip, Ledger.CancelTrip, SettleTrip, Ledger.BookTrip;
      hide Ledger.InitiatePayment, Ledger.VerifyPayment, Board, Ledger.CancelBooking;
      StaysValid(db.opening, db.State(), Withdraw(driver, trip, reasonGiven));
      if !OwnedTrip(db.State(), driver, trip) { return Threw(NotFound); }
      if db.trips[trip].status !in {Upcoming, Active, Started} || !reasonGiven { return Threw(BadRequest); }
      db.trips := db.trips[trip := db.trips[trip].(status := Cancelled)];
      WithdrawBookings(trip);
      return OK;
    }

    method WithdrawBookings(trip: Id)
      modifies db`bookings, db`escrows
      ensures db.bookings == MapRows(old(db.bookings), WithdrawnRow(trip))
      ensures db.escrows == RefundEscrows(old(db.escrows), old(db.bookings), trip, |old(db.bookings)|)
    {
      hide WithdrawnTo, MapRows, RefundEscrows, RefundEscrow;
      ghost var before := db.bookings;
      WithdrawnNoneYet(before, old(db.escrows), trip);
      var i := 0;
      while i < |db.bookings|
        invariant 0 <= i <= |db.bookings| == |before|
        invariant db.bookings == WithdrawnTo(before, trip, i)
        invariant db.escrows == RefundEscrows(old(db.escrows), before, trip, i)
      {
        WithdrawOneMore(before, old(db.escrows), trip, i);
        var booking := db.bookings[i];
        if Open(booking) && booking.trip == trip {
          db.bookings := db.bookings[i := booking.(status := BookingCancelled, cancelledByDriver := true)];
          if booking.payment == Paid {
            ProcessRefund(booking.code);
          }
        }
        i := i + 1;
      }
      WithdrawnAll(before, trip);
    }

    method ProcessRefund(code: string)
      modifies db`escrows
      ensures db.escrows == RefundEscrow(old(db.escrows), code)
    {
      var i := IndexOf(db.escrows, EscrowOf(code));
      if i >= 0 && db.escrows[i].status == Held {
        db.escrows := db.escrows[i := db.escrows[i].(status := EscrowRefunded)];
      }
    }

    method UpdateTrip(driver: Option<Id>, trip: Id, dto: Revision) returns (reply: Reply)
      modifies db
      ensures (db.State(), reply) == ReviseTrip(old(db.State()), driver, trip, dto)
      ensures old(db.Valid()) ==> db.Valid()
      ensures db.State() == old(db.State()).(trips := db.trips)
    {
      hide LedgerRuns.Inv, LedgerRuns.MoneyInv, HasConfirmed;
      StaysValid(db.opening, db.State(), Revise(driver, trip, dto));
      if !OwnedTrip(db.State(), driver, trip) { return Threw(NotFound); }
      if db.trips[trip].status != Upcoming || HasConfirmed(db.bookings, trip) || !dto.valid { return Threw(BadRequest); }
      var row := db.trips[trip];
      row := row.(departure := OrElse(dto.departure, row.departure), timeAlone := OrElse(dto.timeAlone, row.timeAlone));
      row := row.(closing := OrElse(dto.closing, row.closing), fare := OrElse(dto.fare, row.fare));
      if dto.seatsOrVehicle {
        if dto.capacity.None? { return Threw(NotFound); }
        var nextTotalSeats := OrElse(dto.totalSeats, row.totalSeats);
        if nextTotalSeats < row.bookedSeats || nextTotalSeats > dto.capacity.value { return Threw(BadRequest); }
        row := row.(totalSeats := nextTotalSeats);
      }
      db.trips := db.trips[trip := row];
      return OK;
    }

    method CompleteTrip(driver: Option<Id>, trip: Id) returns (reply: Reply)
      modifies db
      ensures (db.State(), reply) == SettleTrip(old(db.State()), driver, trip)
      ensures old(db.Valid()) ==> db.Valid()
      ensures db.State() == old(db.State()).(trips := db.trips, bookings := db.bookings)
    {
      hide LedgerRuns.Inv, LedgerRuns.MoneyInv;
      StaysValid(db.opening, db.State(), Settle(driver, trip));
      if !OwnedTrip(db.State(), driver, trip) { return Threw(NotFound); }
      if db.trips[trip].status !in {Active, Started} { return Threw(BadRequest); }
      db.trips := db.trips[trip := db.trips[trip].(status := Completed)];
      SettleTripBookings(trip);
      return OK;
    }

    method SettleTripBookings(trip: Id)
      modifies db`bookings
      ensures db.bookings == MapRows(old(db.bookings), SettledRow(trip))
    {
      ghost var before := db.bookings;
      var i := 0;
      while i < |db.bookings|
        invariant 0 <= i <= |db.bookings| == |before|
        invariant forall j :: 0 <= j < i ==> db.bookings[j] == SettledRow(trip)(before[j])
        invariant forall j :: i <= j < |before| ==> db.bookings[j] == before[j]
      {
        var booking := db.bookings[i];
        if ConfirmedOn(booking, trip) && booking.payment == Paid {
          db.bookings := db.bookings[i := booking.(status := BookingCompleted)];
        }
        i := i + 1;
      }
      assert db.bookings == MapRows(before, SettledRow(trip));
    }
  }

  class PaymentService {
    const db: Database

    constructor (db: Database)
      ensures this.db == db
    {
      this.db := db;
    }

    method InitiatePayment(passenger: Option<Id>, intent: string, reference: string, now: int, coupons: map<string, Coupon>,
                           gatewayOk: bool) returns (reply: Reply)
      modifies db
      ensures (db.State(), reply)
              == Ledger.InitiatePayment(old(db.State()), passenger, intent, reference, now, coupons, gatewayOk)
      ensures old(db.Valid()) ==> db.Valid()
      ensures db.State() == old(db.State()).(intents := db.intents, payments := db.payments)
    {
      hide LedgerRuns.Inv, LedgerRuns.MoneyInv, Ledger.CreateTrip, Advance, Ledger.SetBookingStatus, Ledger.UpdateTrip, ReviseTrip;
      hide Ledger.CompleteTrip, Ledger.CancelTrip, WithdrawTrip, SettleTrip;
      hide Ledger.BookTrip, Ledger.VerifyPayment, Board, Ledger.CancelBooking;
      hide Repriced;
      StaysValid(db.opening, db.State(), Pay(passenger, intent, reference, now, coupons, gatewayOk));
      if passenger.None? { return Threw(NotFound); }
      var i := IndexOf(db.intents, IntentCoded(intent));
      if i < 0 { return Threw(NotFound); }
      if db.intents[i].passenger != passenger.value { return Threw(Forbidden); }
      if db.intents[i].status != IntentPending || db.intents[i].expires <= now { return Threw(BadRequest); }
      if db.intents[i].trip !in db.trips { return Threw(NotFound); }
      var amount := RetryCoupon(i, coupons, now);
      if IndexOf(db.payments, HasRef(reference)) >= 0 { return Threw(DatabaseError); }
      db.payments := db.payments + [Payment(reference, intent, amount, Unpaid, None)];
      return if gatewayOk then OK else Threw(GatewayDown);
    }

    /** Applies the intent's coupon if no discount is locked in yet. */
    method RetryCoupon(i: nat, coupons: map<string, Coupon>, now: int) returns (amount: real)
      requires i < |db.intents|
      modifies db`intents
      ensures db.intents == old(db.intents)[i := Repriced(old(db.intents)[i], coupons, now)]
      ensures amount == db.intents[i].paid
    {
      var row := db.intents[i];
      amount := row.paid;
      if row.coupon != "" && row.discount == 0.0 {
        var discount := LenientDiscount(coupons, row.coupon, row.total, now);
        if discount > 0.0 {
          amount := Max(row.total - discount, 0.0);
          db.intents := db.intents[i := row.(discount := discount, paid := amount)];
        }
      }
    }

    /** Runs in its own transaction; nothing is written before the last check that can fail. */
    method VerifyPayment(reference: string, v: Verdict, token: string, feePercent: real) returns (reply: Reply)
      modifies db
      ensures (db.State(), reply) == Ledger.VerifyPayment(old(db.State()), reference, v, token, feePercent)
      ensures old(db.Valid()) ==> db.Valid()
      ensures LedgerOrders.Verified(old(db.State()), db.State(), reply, reference, v, token, feePercent)
    {
      hide LedgerOrders.Verified;
      hide LedgerRuns.Inv, LedgerRuns.MoneyInv, Step;
      StepIs(db.State(), Verify(reference, v, token, feePercent));
      LedgerOrders.VerifyWrites(db.State(), reference, v, token, feePercent);
      StaysValid(db.opening, db.State(), Verify(reference, v, token, feePercent));
      reply := VerifyInTransaction(reference, v, token, feePercent);
    }

    /** What runs inside the transaction. */
    method VerifyInTransaction(reference: string, v: Verdict, token: string, feePercent: real) returns (reply: Reply)
      modifies db
      ensures (db.State(), reply) == Ledger.VerifyPayment(old(db.State()), reference, v, token, feePercent)
    {
      var p := IndexOf(db.payments, PendingRef(reference));
      if p < 0 { return NotVerified; }
      var already := IndexOf(db.bookings, PaidBy(reference));
      if already >= 0 {
        db.payments := db.payments[p := SettlePayment(db.payments[p], db.bookings[already].code)];
        return OK;
      }
      var i := IndexOf(db.intents, IntentCoded(db.payments[p].intent));
      if i < 0 || db.intents[i].status != IntentPending { return NotVerified; }
      if v.Unreachable? || !v.ok || v.amount < db.payments[p].amount { return NotVerified; }
      var intent := db.intents[i];
      if IndexOf(db.bookings, Coded(intent.code)) >= 0 || intent.trip !in db.trips { return NotVerified; }
      CreateBooking(p, i, reference, token, feePercent);
      return OK;
    }

    /** Past the guards: the booking, the consumed intent, the settled payment and the held escrow. */
    method CreateBooking(p: nat, i: nat, reference: string, token: string, feePercent: real)
      requires p < |db.payments| && i < |db.intents| && db.intents[i].trip in db.trips
      modifies db
      ensures db.State() == Confirm(old(db.State()), p, i, reference, token, feePercent)
    {
      var intent := db.intents[i];
      db.bookings := db.bookings + [NewBooking(intent, reference, token)];
      db.intents := db.intents[i := intent.(status := Consumed)];
      db.payments := db.payments[p := SettlePayment(db.payments[p], intent.code)];
      var fareForDriver := intent.total;
      var platformFee := fareForDriver * feePercent / 100.0;
      assert fareForDriver - platformFee == NetFare(intent.total, feePercent);
      db.escrows := db.escrows + [Escrow(intent.code, db.trips[intent.trip].driver, fareForDriver - platformFee, Held)];
    }
  }
}
