/** What happens to a stored trip over a run: who moves its status and when, and which of its terms a passenger can rely on. */
module LedgerLifecycle {
  import opened Common
  import opened Tables
  import opened Ledger
  import opened LedgerSeats
  import LedgerRuns

  // ---- Status ----

  predicate Live(s: TripStatus) { s in {Upcoming, Active, Started} }

  predicate Ended(s: TripStatus) { s in {Completed, Cancelled} }

  /** The edges of the trip's life: activated, started, completed, or cancelled while live. */
  predicate Edge(a: TripStatus, b: TripStatus) {
    || (a == Upcoming && b == Active)
    || (a == Active && b == Started)
    || (a in {Active, Started} && b == Completed)
    || (Live(a) && b == Cancelled)
  }

  /** The calls that may move a trip's status, each along its own edge. */
  predicate Moves(c: Call, id: Id, a: TripStatus, b: TripStatus) {
    match c
    case Activate(_, t) => t == id && a == Upcoming && b == Active
    case Start(_, t) => t == id && a == Active && b == Started
    case Complete(_, t) => t == id && a in {Active, Started} && b == Completed
    case Settle(_, t) => t == id && a in {Active, Started} && b == Completed
    case CancelAll(_, t, _) => t == id && Live(a) && b == Cancelled
    case Withdraw(_, t, reasonGiven) => t == id && Live(a) && b == Cancelled && reasonGiven
    case _ => false
  }

  /** The driver who makes the call, for the calls that name one. */
  function Caller(c: Call): Option<Id> {
    match c
    case Create(d, _, _) => d
    case Activate(d, _) => d
    case Start(d, _) => d
    case Toggle(d, _, _) => d
    case Update(d, _, _) => d
    case Revise(d, _, _) => d
    case Scan(d, _, _) => d
    case Complete(d, _) => d
    case CancelAll(d, _, _) => d
    case Withdraw(d, _, _) => d
    case Settle(d, _) => d
    case _ => None
  }

  lemma CancelKeepsColumns(db: Db, passenger: Option<Id>, code: string, now: int, refundOk: bool)
    ensures SameTrips(db.trips, CancelBooking(db, passenger, code, now, refundOk).0.trips)
  {
  }

  /** Booking, paying, scanning and cancelling a booking change no column of a trip but bookedSeats. */
  lemma PassengerCalls(db: Db, c: Call)
    requires c.Book? || c.Pay? || c.Verify? || c.Scan? || c.CancelOne?
    ensures SameTrips(db.trips, Step(db, c).0.trips)
  {
    hide CreateTrip, Advance, SetBookingStatus, UpdateTrip, ReviseTrip;
    hide CompleteTrip, CancelTrip, WithdrawTrip, SettleTrip;
    hide BookTrip, CancelBooking, Board;
    match c
    case Book(o, s) => BookKeepsColumns(db, o, s);
    case Scan(d, code, tok) => BoardRow(db, d, code, tok);
    case CancelOne(p, code, now, ok) => CancelKeepsColumns(db, p, code, now, ok);
    case _ => LedgerRuns.PaymentCap(db, c);
  }

  /** The call is an accepted updateTrip of trip t. */
  predicate Edits(db: Db, c: Call, t: Id) { c.Update? && c.trip == t && Updates(db, c.driver, t, c.edit) }

  /** Its body carries another status than the trip has. */
  predicate OverwritesStatus(db: Db, c: Call, t: Id)
    requires t in db.trips
  {
    Edits(db, c, t) && OrElse(c.edit.extra.status, db.trips[t].status) != db.trips[t].status
  }

  /** Its body carries another driver than the trip has. */
  predicate OverwritesDriver(db: Db, c: Call, t: Id)
    requires t in db.trips
  {
    Edits(db, c, t) && OrElse(c.edit.extra.driver, db.trips[t].driver) != db.trips[t].driver
  }

  predicate SameTerms(a: Trip, b: Trip) {
    b.driver == a.driver && b.totalSeats == a.totalSeats && b.departure == a.departure && b.closing == a.closing && b.fare == a.fare
    && b.timeAlone == a.timeAlone
  }

  /** A driver's call rewrites at most the one trip it names, which that driver owns; only the two updates touch its terms. */
  predicate Rewrites(db: Db, trips': map<Id, Trip>, c: Call, t: Id) {
    && t in db.trips && t in trips'
    && var a, b := db.trips[t], trips'[t];
       && (b == a || Caller(c) == Some(a.driver))
       && (b.driver != a.driver <==> OverwritesDriver(db, c, t))
       && (if OverwritesStatus(db, c, t) then b.status != a.status else b.status == a.status || Moves(c, t, a.status, b.status))
       && (c.Update? || c.Revise? || SameTerms(a, b))
  }

  lemma UpdateRewrites(db: Db, c: Call, t: Id)
    requires t in db.trips && c.Update?
    ensures Rewrites(db, Step(db, c).0.trips, c, t)
  {
    hide CreateTrip, Advance, SetBookingStatus, ReviseTrip, HasConfirmed;
    hide CompleteTrip, CancelTrip, WithdrawTrip, SettleTrip;
    hide BookTrip, InitiatePayment, VerifyPayment, Board, CancelBooking;
  }

  lemma DriverCalls(db: Db, c: Call, t: Id)
    requires t in db.trips
    requires !(c.Book? || c.Pay? || c.Verify? || c.Scan? || c.CancelOne?)
    ensures Rewrites(db, Step(db, c).0.trips, c, t)
  {
    hide BookTrip, InitiatePayment, VerifyPayment, Board, CancelBooking, UpdateTrip;
    hide MapRows, CancelledRows, RefundsMade, FailedCodes, RefundEscrows, HasConfirmed;
    if c.Update? {
      UpdateRewrites(db, c, t);
    }
  }

  /**
   * Whatever the call and its body, a stored trip stays stored. Its status moves only by its own driver's call. It leaves the
   * edges of the trip's life exactly by an accepted updateTrip whose body carries another status, and the trip changes hands
   * exactly by one whose body carries another driver.
   */
  lemma StatusMoves(db: Db, c: Call, t: Id)
    requires t in db.trips
    ensures t in Step(db, c).0.trips
    ensures var a, b := db.trips[t], Step(db, c).0.trips[t];
            && (b.driver != a.driver <==> OverwritesDriver(db, c, t))
            && (b.status != a.status ==> Caller(c) == Some(a.driver))
            && (b.status != a.status && !Moves(c, t, a.status, b.status) <==> OverwritesStatus(db, c, t))
            && (Moves(c, t, a.status, b.status) ==> Edge(a.status, b.status))
  {
    hide Step, Updates;
    if c.Book? || c.Pay? || c.Verify? || c.Scan? || c.CancelOne? {
      PassengerCalls(db, c);
      assert SameTripColumns(db.trips[t], Step(db, c).0.trips[t]);
    } else {
      DriverCalls(db, c, t);
    }
  }

  /** How far a status is from the start; nothing declared leads back. */
  function Progress(s: TripStatus): int {
    match s case Upcoming => 0 case Active => 1 case Started => 2 case _ => 3
  }

  ghost predicate AllDeclared(calls: seq<Call>) { forall k :: 0 <= k < |calls| ==> LedgerRuns.Declared(calls[k]) }

  lemma DeclaredOverwritesNothing(db: Db, c: Call, t: Id)
    requires t in db.trips && LedgerRuns.Declared(c)
    ensures !OverwritesStatus(db, c, t) && !OverwritesDriver(db, c, t)
  {
  }

  /** Over every continuation of declared calls a trip keeps its driver, never goes back, and an ended trip keeps its status. */
  lemma {:induction false} TripsLast(db: Db, calls: seq<Call>, t: Id)
    requires t in db.trips && AllDeclared(calls)
    ensures t in Run(db, calls).trips
    ensures var a, b := db.trips[t], Run(db, calls).trips[t];
            && b.driver == a.driver
            && Progress(a.status) <= Progress(b.status)
            && (Progress(a.status) == Progress(b.status) ==> b.status == a.status)
  {
    hide Step, OverwritesStatus, OverwritesDriver;
    if calls != [] {
      var before := calls[..|calls| - 1];
      TripsLast(db, before, t);
      StatusMoves(Run(db, before), calls[|calls| - 1], t);
      DeclaredOverwritesNothing(Run(db, before), calls[|calls| - 1], t);
    }
  }

  // ---- A completed trip was activated first ----

  predicate HadStatus(start: map<Id, real>, calls: seq<Call>, t: Id, k: int, s: TripStatus) {
    0 <= k <= |calls| && var db := Run(Fresh(start), calls[..k]); t in db.trips && db.trips[t].status == s
  }

  ghost predicate WasEver(start: map<Id, real>, calls: seq<Call>, t: Id, s: TripStatus) {
    exists k :: HadStatus(start, calls, t, k, s)
  }

  lemma WasEverSnoc(start: map<Id, real>, calls: seq<Call>, t: Id, s: TripStatus)
    requires calls != []
    ensures WasEver(start, calls[..|calls| - 1], t, s) ==> WasEver(start, calls, t, s)
    ensures var db := Run(Fresh(start), calls); t in db.trips && db.trips[t].status == s ==> WasEver(start, calls, t, s)
  {
    hide Run;
    var before := calls[..|calls| - 1];
    if WasEver(start, before, t, s) {
      var k :| HadStatus(start, before, t, k, s);
      assert calls[..k] == before[..k];
      assert HadStatus(start, calls, t, k, s);
    }
    assert calls[..|calls|] == calls;
    var db := Run(Fresh(start), calls);
    if t in db.trips && db.trips[t].status == s {
      assert HadStatus(start, calls, t, |calls|, s);
    }
  }

  lemma NewTripIsUpcoming(db: Db, c: Call, t: Id)
    requires t !in db.trips && t in Step(db, c).0.trips
    ensures Step(db, c).0.trips[t].status == Upcoming
    ensures c.Create? && c.licenseVerified && c.newTrip.id == t
    ensures Step(db, c).0.trips[t].bookedSeats == OrElse(c.newTrip.bookedSeats, 0)
    ensures c.newTrip.capacity.Some? && c.newTrip.totalSeats <= c.newTrip.capacity.value
  {
    hide InitiatePayment, VerifyPayment, Board, BookTrip, CancelBooking;
    hide MapRows, CancelledRows, RefundsMade, FailedCodes, RefundEscrows, HasConfirmed;
    if c.Book? || c.Pay? || c.Verify? || c.Scan? || c.CancelOne? {
      PassengerCalls(db, c);
    }
  }

  /** Over every run of declared calls, a trip that is started or completed was active at an earlier point of the run. */
  lemma {:induction false} CompletedWasActive(start: map<Id, real>, calls: seq<Call>, t: Id)
    requires AllDeclared(calls)
    ensures var db := Run(Fresh(start), calls);
            t in db.trips && db.trips[t].status in {Active, Started, Completed} ==> WasEver(start, calls, t, Active)
  {
    hide Step, WasEver, OverwritesStatus;
    if calls != [] {
      var before, c := calls[..|calls| - 1], calls[|calls| - 1];
      var db := Run(Fresh(start), before);
      CompletedWasActive(start, before, t);
      WasEverSnoc(start, calls, t, Active);
      if t in db.trips {
        StatusMoves(db, c, t);
        DeclaredOverwritesNothing(db, c, t);
      } else if t in Step(db, c).0.trips {
        NewTripIsUpcoming(db, c, t);
      }
    }
  }

  // ---- Closed for booking ----

  /** The trip is closed for booking, and has at most n seats booked. */
  predicate ShutAt(db: Db, t: Id, n: int) { t in db.trips && db.trips[t].bookingsClosed && db.trips[t].bookedSeats <= n }

  /** setBookingStatus opens the trip, or an updateTrip body carries its closing flag or its count. */
  predicate Reopens(c: Call, t: Id) {
    || (c.Toggle? && c.trip == t && c.open)
    || (c.Update? && c.trip == t && (c.edit.extra.bookingsClosed.Some? || c.edit.extra.bookedSeats.Some?))
  }

  lemma BookWhileShut(db: Db, o: Order, s: Setting, t: Id)
    requires t in db.trips && db.trips[t].bookingsClosed
    ensures t in BookTrip(db, o, s).0.trips
    ensures var a, b := db.trips[t], BookTrip(db, o, s).0.trips[t]; b.bookingsClosed && b.bookedSeats <= a.bookedSeats
  {
    hide ReleaseHold, BookSeats;
    BookKeepsColumns(db, o, s);
  }

  lemma CancelWhileShut(db: Db, passenger: Option<Id>, code: string, now: int, refundOk: bool, t: Id)
    requires t in db.trips
    ensures t in CancelBooking(db, passenger, code, now, refundOk).0.trips
    ensures var a, b := db.trips[t], CancelBooking(db, passenger, code, now, refundOk).0.trips[t];
            b.bookingsClosed == a.bookingsClosed && b.bookedSeats <= a.bookedSeats
  {
  }

  lemma DriverWhileShut(db: Db, c: Call, t: Id)
    requires t in db.trips && db.trips[t].bookingsClosed && !Reopens(c, t)
    requires !(c.Book? || c.Pay? || c.Verify? || c.Scan? || c.CancelOne?)
    ensures t in Step(db, c).0.trips
    ensures var a, b := db.trips[t], Step(db, c).0.trips[t]; b.bookingsClosed && b.bookedSeats == a.bookedSeats
  {
    hide BookTrip, InitiatePayment, VerifyPayment, Board, CancelBooking;
    hide MapRows, CancelledRows, RefundsMade, FailedCodes, RefundEscrows, HasConfirmed;
  }

  lemma StepWhileShut(db: Db, c: Call, t: Id, n: int)
    requires ShutAt(db, t, n) && !Reopens(c, t)
    ensures ShutAt(Step(db, c).0, t, n)
  {
    hide CreateTrip, Advance, SetBookingStatus, UpdateTrip, ReviseTrip;
    hide CompleteTrip, CancelTrip, WithdrawTrip, SettleTrip;
    hide BookTrip, CancelBooking, Board, InitiatePayment, VerifyPayment;
    match c
    case Book(o, s) => BookWhileShut(db, o, s, t);
    case CancelOne(p, code, now, ok) => CancelWhileShut(db, p, code, now, ok, t);
    case Scan(d, code, tok) => BoardRow(db, d, code, tok);
    case Pay(_, _, _, _, _, _) => LedgerRuns.PaymentCap(db, c);
    case Verify(_, _, _, _) => LedgerRuns.PaymentCap(db, c);
    case _ => DriverWhileShut(db, c, t);
  }

  /** Once the driver has closed bookings, no run without a reopening call takes one more seat on the trip. */
  lemma {:induction false} ClosedTakesNobody(db: Db, calls: seq<Call>, t: Id)
    requires t in db.trips && db.trips[t].bookingsClosed
    requires forall k :: 0 <= k < |calls| ==> !Reopens(calls[k], t)
    ensures ShutAt(Run(db, calls), t, db.trips[t].bookedSeats)
  {
    hide Step;
    if calls != [] {
      ClosedTakesNobody(db, calls[..|calls| - 1], t);
      StepWhileShut(Run(db, calls[..|calls| - 1]), calls[|calls| - 1], t, db.trips[t].bookedSeats);
    }
  }

  // ---- The terms a confirmed passenger keeps ----

  lemma ConfirmedStopsUpdate(db: Db, c: Call, t: Id)
    requires HasConfirmed(db.bookings, t) && (c.Update? || c.Revise?) && c.trip == t
    ensures Step(db, c).0 == db
  {
    hide HasConfirmed;
  }

  lemma UpdateElsewhere(db: Db, c: Call, t: Id)
    requires t in db.trips && (c.Update? || c.Revise?) && c.trip != t
    ensures t in Step(db, c).0.trips && Step(db, c).0.trips[t] == db.trips[t]
  {
    hide HasConfirmed;
  }

  lemma StepKeepsTerms(db: Db, c: Call, t: Id)
    requires t in db.trips && HasConfirmed(db.bookings, t)
    ensures t in Step(db, c).0.trips && SameTerms(db.trips[t], Step(db, c).0.trips[t])
  {
    hide Step, HasConfirmed;
    if c.Update? || c.Revise? {
      if c.trip == t { ConfirmedStopsUpdate(db, c, t); } else { UpdateElsewhere(db, c, t); }
    } else if c.Book? || c.Pay? || c.Verify? || c.Scan? || c.CancelOne? {
      PassengerCalls(db, c);
      assert SameTripColumns(db.trips[t], Step(db, c).0.trips[t]);
    } else {
      DriverCalls(db, c, t);
    }
  }

  /** As long as a booking on the trip is confirmed, no call changes its driver, seats, fare or times, whatever its body carries. */
  lemma {:induction false} ConfirmedFreezesTerms(db: Db, calls: seq<Call>, t: Id)
    requires t in db.trips
    requires forall k :: 0 <= k < |calls| ==> HasConfirmed(Run(db, calls[..k]).bookings, t)
    ensures t in Run(db, calls).trips && SameTerms(db.trips[t], Run(db, calls).trips[t])
  {
    hide Step, HasConfirmed;
    if calls != [] {
      var n := |calls| - 1;
      var before := calls[..n];
      forall k | 0 <= k < |before| ensures HasConfirmed(Run(db, before[..k]).bookings, t) {
        assert before[..k] == calls[..k];
      }
      ConfirmedFreezesTerms(db, before, t);
      StepKeepsTerms(Run(db, before), calls[n], t);
    }
  }
}
