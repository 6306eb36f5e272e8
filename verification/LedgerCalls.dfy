/**
 * What each ledger call accepts and what it then writes, column by column, in terms of the stored rows alone. The other
 * results are about what the calls keep; these fix what they do.
 */
module LedgerCalls {
  import opened Common
  import opened Tables
  import opened Ledger
  import LedgerRuns
  import LedgerSeats
  import Pricing

  // ---- The driver's trip calls ----

  /** The caller owns the trip. */
  predicate Owns(db: Db, driver: Option<Id>, trip: Id) { trip in db.trips && driver == Some(db.trips[trip].driver) }

  /** activateTrip and startTrip: accepted from exactly one status, which becomes the next one. */
  lemma ActivateAndStart(db: Db, driver: Option<Id>, trip: Id)
    ensures var (db', reply) := Step(db, Activate(driver, trip));
            && (reply == OK <==> Owns(db, driver, trip) && db.trips[trip].status == Upcoming)
            && db' == (if reply == OK then db.(trips := db.trips[trip := db.trips[trip].(status := Active)]) else db)
    ensures var (db', reply) := Step(db, Start(driver, trip));
            && (reply == OK <==> Owns(db, driver, trip) && db.trips[trip].status == Active)
            && db' == (if reply == OK then db.(trips := db.trips[trip := db.trips[trip].(status := Started)]) else db)
  {
  }

  /** setBookingStatus: afterwards the trip is closed for booking exactly when the call did not open it. */
  lemma OpenAndClose(db: Db, driver: Option<Id>, trip: Id, open: bool)
    ensures var (db', reply) := Step(db, Toggle(driver, trip, open));
            && (reply == OK <==> Owns(db, driver, trip) && db.trips[trip].status in {Upcoming, Active})
            && (reply == OK ==> trip in db'.trips && (db'.trips[trip].bookingsClosed <==> !open))
            && db' == (if reply == OK then db.(trips := db.trips[trip := db.trips[trip].(bookingsClosed := !open)]) else db)
  {
  }

  /** createTrip: a registered, verified driver with a vehicle large enough, and the row it stores. */
  lemma CreateStores(db: Db, driver: Option<Id>, licenseVerified: bool, t: NewTrip)
    ensures var (db', reply) := Step(db, Create(driver, licenseVerified, t));
            && (reply == OK <==> && driver.Some? && driver.value in db.balances && licenseVerified
                                 && t.capacity.Some? && t.totalSeats <= t.capacity.value && t.id !in db.trips)
            && (reply != OK ==> db' == db)
            && (reply == OK ==>
                  && t.id in db'.trips && db' == db.(trips := db.trips[t.id := db'.trips[t.id]])
                  && var row := db'.trips[t.id];
                     && row.driver == driver.value && row.status == Upcoming && row.totalSeats == t.totalSeats
                     && row.departure == t.departure && row.closing == t.closing && row.timeAlone == t.timeAlone && row.fare == t.fare
                     && (t.bookedSeats.None? ==> row.bookedSeats == 0) && (t.bookingsClosed.None? ==> !row.bookingsClosed))
  {
  }

  predicate NoneConfirmed(bookings: seq<Booking>, trip: Id) {
    forall i :: 0 <= i < |bookings| && bookings[i].trip == trip ==> bookings[i].status != Confirmed
  }

  lemma NoneConfirmedIs(bookings: seq<Booking>, trip: Id)
    ensures NoneConfirmed(bookings, trip) <==> !HasConfirmed(bookings, trip)
  {
    if !NoneConfirmed(bookings, trip) {
      var i :| 0 <= i < |bookings| && bookings[i].trip == trip && bookings[i].status == Confirmed;
      assert ConfirmedOn(bookings[i], trip);
    }
  }

  /** updateTrip: every column the body carries is stored, and every other stays. */
  lemma UpdateStores(db: Db, driver: Option<Id>, trip: Id, e: Edit)
    ensures var (db', reply) := Step(db, Update(driver, trip, e));
            && (reply == OK <==> && Owns(db, driver, trip) && NoneConfirmed(db.bookings, trip)
                                 && (e.totalSeats.Some? && e.capacity.Some? ==> e.totalSeats.value <= e.capacity.value)
                                 && (e.extra.driver.Some? ==> e.extra.driver.value in db.balances))
            && (reply != OK ==> db' == db)
            && (reply == OK ==>
                  && trip in db'.trips && db' == db.(trips := db.trips[trip := db'.trips[trip]])
                  && var a, b := db.trips[trip], db'.trips[trip];
                     && b.departure == e.departure && b.timeAlone == e.timeAlone
                     && b.totalSeats == (match e.totalSeats case Some(n) => n as int case None => a.totalSeats)
                     && b.fare == (match e.extra.fare case Some(f) => f case None => a.fare)
                     && b.closing == (match e.extra.closing case Some(c) => c case None => a.closing)
                     && b.status == (match e.extra.status case Some(s) => s case None => a.status)
                     && b.bookedSeats == (match e.extra.bookedSeats case Some(n) => n case None => a.bookedSeats)
                     && b.bookingsClosed == (match e.extra.bookingsClosed case Some(c) => c case None => a.bookingsClosed)
                     && b.driver == (match e.extra.driver case Some(d) => d case None => a.driver))
  {
    hide HasConfirmed, NoneConfirmed;
    NoneConfirmedIs(db.bookings, trip);
  }

  function SeatsAfter(t: Trip, r: Revision): int { if r.totalSeats.Some? then r.totalSeats.value else t.totalSeats }

  /** The driver module's updateTrip: an upcoming trip without confirmed bookings, and never fewer seats than are booked. */
  lemma ReviseStores(db: Db, driver: Option<Id>, trip: Id, r: Revision)
    ensures var (db', reply) := Step(db, Revise(driver, trip, r));
            && (reply == OK <==>
                  && Owns(db, driver, trip) && db.trips[trip].status == Upcoming && NoneConfirmed(db.bookings, trip) && r.valid
                  && (r.seatsOrVehicle ==>
                        r.capacity.Some? && db.trips[trip].bookedSeats <= SeatsAfter(db.trips[trip], r) <= r.capacity.value))
            && (reply != OK ==> db' == db)
            && (reply == OK ==>
                  && trip in db'.trips && db' == db.(trips := db.trips[trip := db'.trips[trip]])
                  && var a, b := db.trips[trip], db'.trips[trip];
                     && b.driver == a.driver && b.status == a.status
                     && b.bookedSeats == a.bookedSeats && b.bookingsClosed == a.bookingsClosed
                     && b.departure == (match r.departure case Some(d) => d case None => a.departure)
                     && b.closing == (match r.closing case Some(c) => c case None => a.closing)
                     && b.fare == (match r.fare case Some(f) => f case None => a.fare)
                     && b.totalSeats == (if r.seatsOrVehicle then SeatsAfter(a, r) else a.totalSeats))
  {
    hide HasConfirmed, NoneConfirmed;
    NoneConfirmedIs(db.bookings, trip);
  }

  /** Only the status of booking b moved, to `to`. */
  predicate OnlyStatus(b: Booking, b': Booking, to: BookingStatus) { b' == b.(status := to) }

  /** Both completions end the trip; one completes its confirmed bookings, the other its confirmed and paid ones. */
  lemma CompletionRows(db: Db, driver: Option<Id>, trip: Id, i: nat)
    ensures var (db', reply) := Step(db, Complete(driver, trip));
            && (reply == OK <==> Owns(db, driver, trip) && db.trips[trip].status in {Active, Started})
            && (reply != OK ==> db' == db)
            && (reply == OK ==> db' == db.(trips := db.trips[trip := db.trips[trip].(status := Completed)], bookings := db'.bookings))
            && |db'.bookings| == |db.bookings|
            && (reply == OK && i < |db.bookings| ==>
                  if db.bookings[i].trip == trip && db.bookings[i].status == Confirmed
                  then OnlyStatus(db.bookings[i], db'.bookings[i], BookingCompleted) else db'.bookings[i] == db.bookings[i])
    ensures var (db', reply) := Step(db, Settle(driver, trip));
            && (reply == OK <==> Owns(db, driver, trip) && db.trips[trip].status in {Active, Started})
            && (reply != OK ==> db' == db)
            && (reply == OK ==> db' == db.(trips := db.trips[trip := db.trips[trip].(status := Completed)], bookings := db'.bookings))
            && |db'.bookings| == |db.bookings|
            && (reply == OK && i < |db.bookings| ==>
                  if db.bookings[i].trip == trip && db.bookings[i].status == Confirmed && db.bookings[i].payment == Paid
                  then OnlyStatus(db.bookings[i], db'.bookings[i], BookingCompleted) else db'.bookings[i] == db.bookings[i])
  {
  }

  /** A booking a cancelled trip takes down with it. */
  predicate TakenDown(b: Booking, trip: Id) { b.trip == trip && b.status in {Confirmed, BookingPending} }

  predicate PaidByGateway(b: Booking) { b.payment == Paid && b.reference.Some? }

  /** cancelTrip, row by row: who is cancelled, who is refunded, and who is flagged because the refund call threw. */
  lemma CancelTripRows(db: Db, driver: Option<Id>, trip: Id, fails: set<nat>, i: nat)
    ensures var (db', reply) := Step(db, CancelAll(driver, trip, fails));
            && (reply.Done? <==> Owns(db, driver, trip) && db.trips[trip].status in {Upcoming, Active, Started})
            && (!reply.Done? ==> db' == db)
            && (reply.Done? ==> db'.trips == db.trips[trip := db.trips[trip].(status := Cancelled)]
                                && db' == db.(trips := db'.trips, bookings := db'.bookings, refunds := db'.refunds))
            && |db'.bookings| == |db.bookings|
            && (reply.Done? && i < |db.bookings| ==>
                  var b, b' := db.bookings[i], db'.bookings[i];
                  if TakenDown(b, trip)
                  then && b' == b.(status := BookingCancelled, cancelledByDriver := true, payment := b'.payment,
                                   refundFailed := b'.refundFailed)
                       && b'.payment == (if PaidByGateway(b) && i !in fails then Refunded else b.payment)
                       && (b'.refundFailed <==> b.refundFailed || (PaidByGateway(b) && i in fails))
                  else b' == b)
  {
    hide RefundsMade, FailedCodes;
  }

  /** A booking is newly flagged exactly when failedRefunds lists it. */
  lemma FlaggedAreListed(db: Db, driver: Option<Id>, trip: Id, fails: set<nat>, i: nat)
    requires CancelTrip(db, driver, trip, fails).1.Done? && i < |db.bookings| && !db.bookings[i].refundFailed
    ensures i < |CancelTrip(db, driver, trip, fails).0.bookings|
    ensures CancelTrip(db, driver, trip, fails).0.bookings[i].refundFailed
            <==> i in LedgerRuns.FailedPositions(db.bookings, trip, fails, |db.bookings|)
  {
    hide RefundsMade, FailedCodes, LedgerRuns.FailedPositions;
    LedgerRuns.FailedRefundsExact(db.bookings, trip, fails, |db.bookings|);
  }

  /** The driver module's cancelTrip cancels the same bookings, and needs a reason. */
  lemma WithdrawRows(db: Db, driver: Option<Id>, trip: Id, reasonGiven: bool, i: nat)
    ensures var (db', reply) := Step(db, Withdraw(driver, trip, reasonGiven));
            && (reply == OK <==> Owns(db, driver, trip) && db.trips[trip].status in {Upcoming, Active, Started} && reasonGiven)
            && (reply != OK ==> db' == db)
            && (reply == OK ==> db'.trips == db.trips[trip := db.trips[trip].(status := Cancelled)]
                                && db' == db.(trips := db'.trips, bookings := db'.bookings, escrows := db'.escrows))
            && |db'.bookings| == |db.bookings|
            && (reply == OK && i < |db.bookings| ==>
                  var b := db.bookings[i];
                  db'.bookings[i] == if TakenDown(b, trip) then b.(status := BookingCancelled, cancelledByDriver := true) else b)
  {
    hide RefundEscrows;
  }

  // ---- Boarding ----

  /** The row findOne returns for a booking code. */
  predicate FirstCoded(bookings: seq<Booking>, i: int, code: string) {
    0 <= i < |bookings| && bookings[i].code == code && forall j :: 0 <= j < i ==> bookings[j].code != code
  }

  /** The driver may board the booking: own trip, right ticket if one is shown, paid and confirmed. */
  predicate MayBoard(db: Db, driver: Option<Id>, b: Booking, token: Option<string>) {
    && Owns(db, driver, b.trip)
    && (token.Some? ==> b.token != "" && token.value == b.token)
    && b.payment == Paid && b.status == Confirmed
  }

  /** A scan succeeds exactly for a booking the driver may board; otherwise nothing changes. */
  lemma BoardAccepted(db: Db, driver: Option<Id>, code: string, token: Option<string>)
    ensures var (db', reply) := Board(db, driver, code, token);
            && (reply.Done? <==> exists i :: FirstCoded(db.bookings, i, code) && MayBoard(db, driver, db.bookings[i], token))
            && (!reply.Done? ==> db' == db)
  {
    hide ReleaseEscrow;
    var i := IndexOf(db.bookings, Coded(code));
    ReleaseAnswers(db.(bookings := if i >= 0 then db.bookings[i := db.bookings[i].(ticket := Scanned)] else db.bookings), code);
    if i >= 0 {
      assert FirstCoded(db.bookings, i, code) by {
        forall j | 0 <= j < i ensures db.bookings[j].code != code { assert !Coded(code)(db.bookings[j]); }
      }
    }
    forall k | FirstCoded(db.bookings, k, code) ensures k == i {
      assert Coded(code)(db.bookings[k]);
      assert i >= 0 ==> Coded(code)(db.bookings[i]);
    }
  }

  lemma ReleaseAnswers(db: Db, code: string)
    ensures ReleaseEscrow(db, code).1.Done?
  {
  }

  // ---- Cancelling a booking ----

  predicate Own(b: Booking, code: string, passenger: Id) { b.code == code && b.passenger == passenger }

  predicate FirstOwn(bookings: seq<Booking>, i: int, code: string, passenger: Id) {
    0 <= i < |bookings| && Own(bookings[i], code, passenger) && forall j :: 0 <= j < i ==> !Own(bookings[j], code, passenger)
  }

  /** The two-hour window, where the departure time parses. */
  predicate InTime(db: Db, b: Booking, now: int) {
    b.trip in db.trips && db.trips[b.trip].timeAlone.Some? ==> db.trips[b.trip].timeAlone.value - now >= 7200000
  }

  /** What cancelling row i writes: the row, the refund of what was paid, and the seats given back. */
  ghost predicate CancelledRow(db: Db, db': Db, i: int) {
    0 <= i < |db.bookings| &&
    var b := db.bookings[i];
    var refunded := PaidByGateway(b);
    && db'.bookings == db.bookings[i := b.(status := BookingCancelled, payment := if refunded then Refunded else b.payment)]
    && db'.refunds == (if refunded then db.refunds + [Refund(b.reference.value, b.paid)] else db.refunds)
    && db' == db.(trips := db'.trips, bookings := db'.bookings, refunds := db'.refunds)
    && db'.trips.Keys == db.trips.Keys
    && (forall t <- db.trips ::
          db'.trips[t] == if t == b.trip then db.trips[t].(bookedSeats := db.trips[t].bookedSeats - b.seats) else db.trips[t])
  }

  /** Accepted exactly for the passenger's own open booking, in time, whose refund (if it was paid) goes through. */
  lemma CancelBookingAccepted(db: Db, passenger: Option<Id>, code: string, now: int, refundOk: bool)
    ensures var (db', reply) := CancelBooking(db, passenger, code, now, refundOk);
            && (reply.Done? <==> exists i :: CancelsRow(db, passenger, code, now, refundOk, i))
            && (!reply.Done? ==> db' == db)
            && (forall i :: CancelsRow(db, passenger, code, now, refundOk, i) ==> CancelledRow(db, db', i))
            && ((forall j :: 0 <= j < |db.bookings| ==> passenger.None? || !Own(db.bookings[j], code, passenger.value))
                ==> (db', reply) == (db, Threw(NotFound)))
  {
    hide CancelledRow, Own;
    if passenger.Some? {
      var i := IndexOf(db.bookings, CodedFor(code, passenger.value));
      OwnIndex(db.bookings, code, passenger.value);
      if i >= 0 {
        if CancelBooking(db, passenger, code, now, refundOk).1.Done? { CancelWrites(db, passenger, code, now, refundOk); }
        assert CancelBooking(db, passenger, code, now, refundOk).1.Done? <==> CancelsRow(db, passenger, code, now, refundOk, i);
      }
    }
  }

  lemma CancelWrites(db: Db, passenger: Option<Id>, code: string, now: int, refundOk: bool)
    requires CancelBooking(db, passenger, code, now, refundOk).1.Done?
    ensures CancelledRow(db, CancelBooking(db, passenger, code, now, refundOk).0, IndexOf(db.bookings, CodedFor(code, passenger.value)))
  {
  }

  predicate CancelsRow(db: Db, passenger: Option<Id>, code: string, now: int, refundOk: bool, i: int) {
    && passenger.Some? && FirstOwn(db.bookings, i, code, passenger.value)
    && var b := db.bookings[i];
       b.status in {Confirmed, BookingPending} && InTime(db, b, now) && (PaidByGateway(b) ==> refundOk)
  }

  lemma OwnIndex(bookings: seq<Booking>, code: string, passenger: Id)
    ensures var i := IndexOf(bookings, CodedFor(code, passenger));
            && (i >= 0 ==> FirstOwn(bookings, i, code, passenger))
            && (forall k :: FirstOwn(bookings, k, code, passenger) ==> k == i)
            && (i < 0 <==> forall j :: 0 <= j < |bookings| ==> !Own(bookings[j], code, passenger))
  {
    var i := IndexOf(bookings, CodedFor(code, passenger));
    forall j | 0 <= j < (if i < 0 then |bookings| else i) ensures !Own(bookings[j], code, passenger) {
      assert !CodedFor(code, passenger)(bookings[j]);
    }
    forall k | FirstOwn(bookings, k, code, passenger) ensures k == i {
      assert CodedFor(code, passenger)(bookings[k]);
    }
  }

  // ---- Which exception ----

  /** A driver's trip call refused: NotFound for a trip that is not the caller's, whatever else is wrong; BadRequest otherwise. */
  lemma TripRefusals(db: Db, c: Call)
    requires c.Activate? || c.Start? || c.Toggle? || c.Complete? || c.Settle? || c.CancelAll? || c.Withdraw?
    ensures Step(db, c).1.Threw? ==> Step(db, c).1.fault == if Owns(db, c.driver, c.trip) then BadRequest else NotFound
  {
    hide MapRows, CancelledRows, RefundsMade, FailedCodes, RefundEscrows;
    hide CreateTrip, UpdateTrip, ReviseTrip, BookTrip, InitiatePayment, VerifyPayment, Board, CancelBooking;
  }

  /** A scan refused: NotFound without driver or booking, Forbidden on another driver's trip, BadRequest for a ticket not in order. */
  lemma BoardRefusals(db: Db, driver: Option<Id>, code: string, token: Option<string>)
    ensures Board(db, driver, code, token).1.Threw? ==>
              var fault := Board(db, driver, code, token).1.fault;
              && (fault == NotFound <==> driver.None? || forall i :: 0 <= i < |db.bookings| ==> db.bookings[i].code != code)
              && (fault == Forbidden ==> exists i :: FirstCoded(db.bookings, i, code) && !Owns(db, driver, db.bookings[i].trip))
              && (fault == BadRequest ==> exists i :: FirstCoded(db.bookings, i, code) && Owns(db, driver, db.bookings[i].trip))
              && fault in {NotFound, Forbidden, BadRequest}
  {
    hide ReleaseEscrow;
    var i := IndexOf(db.bookings, Coded(code));
    ReleaseAnswers(db.(bookings := if i >= 0 then db.bookings[i := db.bookings[i].(ticket := Scanned)] else db.bookings), code);
    forall j | 0 <= j < (if i < 0 then |db.bookings| else i) ensures db.bookings[j].code != code {
      assert !Coded(code)(db.bookings[j]);
    }
    assert i >= 0 ==> FirstCoded(db.bookings, i, code);
  }

  /** A cancellation refused: NotFound exactly when the passenger has no such booking, BadRequest otherwise. */
  lemma CancelRefusals(db: Db, passenger: Option<Id>, code: string, now: int, refundOk: bool)
    ensures CancelBooking(db, passenger, code, now, refundOk).1.Threw? ==>
              CancelBooking(db, passenger, code, now, refundOk).1.fault
              == if passenger.None? || forall j :: 0 <= j < |db.bookings| ==> !Own(db.bookings[j], code, passenger.value)
                 then NotFound else BadRequest
  {
    if passenger.Some? {
      OwnIndex(db.bookings, code, passenger.value);
    }
  }
}
