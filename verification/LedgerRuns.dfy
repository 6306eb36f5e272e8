/** The main results about the ledger: what holds after every run of calls from a database with no bookings. */
module LedgerRuns {
  import opened Common
  import opened Tables
  import opened Sums
  import opened Ledger
  import opened LedgerSeats
  import Money = LedgerMoney

  /** Escrows, balances and refunds: kept by every call, whatever its request body carries. */
  ghost predicate MoneyInv(start: map<Id, real>, db: Db) {
    Money.EscrowInv(db) && Money.RefundInv(db) && Money.Conserved(start, db.balances, db.escrows)
  }

  ghost predicate Inv(start: map<Id, real>, db: Db) { SeatInv(db) && MoneyInv(start, db) }

  lemma StepKeepsMoney(start: map<Id, real>, db: Db, c: Call)
    requires MoneyInv(start, db)
    ensures MoneyInv(start, Step(db, c).0)
  {
    hide Step, Money.EscrowInv, Money.RefundInv, Money.Conserved;
    Money.StepKeepsEscrow(start, db, c);
    Money.StepKeepsRefunds(db, c);
  }

  lemma {:induction false} RunKeepsMoney(start: map<Id, real>, db: Db, calls: seq<Call>)
    requires MoneyInv(start, db)
    ensures MoneyInv(start, Run(db, calls))
  {
    hide Step, MoneyInv;
    if calls != [] {
      RunKeepsMoney(start, db, calls[..|calls| - 1]);
      StepKeepsMoney(start, Run(db, calls[..|calls| - 1]), calls[|calls| - 1]);
    }
  }

  /** The money invariant after every run from a fresh database. */
  lemma MoneyFromFresh(start: map<Id, real>, calls: seq<Call>)
    ensures MoneyInv(start, Run(Fresh(start), calls))
  {
    FreshInv(start);
    RunKeepsMoney(start, Fresh(start), calls);
  }

  lemma FreshInv(start: map<Id, real>)
    ensures Inv(start, Fresh(start)) && HoldsOk(Fresh(start))
  {
  }

  /** Every call keeps the whole invariant, except exactly the ones that miscount seats. */
  lemma StepKeepsInv(start: map<Id, real>, db: Db, c: Call)
    requires Inv(start, db)
    ensures Inv(start, Step(db, c).0) <==> !Miscounts(db, c)
  {
    hide Step, SeatInv, MoneyInv, Miscounts;
    StepKeepsSeats(db, c);
    StepKeepsMoney(start, db, c);
  }

  /** No call of the run miscounts seats. */
  ghost predicate CountsRight(db: Db, calls: seq<Call>) {
    forall k :: 0 <= k < |calls| ==> !Miscounts(Run(db, calls[..k]), calls[k])
  }

  lemma CountsRightPrefix(db: Db, calls: seq<Call>)
    requires calls != [] && CountsRight(db, calls)
    ensures CountsRight(db, calls[..|calls| - 1]) && !Miscounts(Run(db, calls[..|calls| - 1]), calls[|calls| - 1])
  {
    hide Run, Miscounts;
    var before := calls[..|calls| - 1];
    forall k | 0 <= k < |before| ensures !Miscounts(Run(db, before[..k]), before[k]) {
      assert before[..k] == calls[..k];
    }
  }

  lemma {:induction false} RunKeepsInv(start: map<Id, real>, db: Db, calls: seq<Call>)
    requires Inv(start, db) && CountsRight(db, calls)
    ensures Inv(start, Run(db, calls))
  {
    hide Step, Inv, Miscounts;
    if calls != [] {
      CountsRightPrefix(db, calls);
      RunKeepsInv(start, db, calls[..|calls| - 1]);
      StepKeepsInv(start, Run(db, calls[..|calls| - 1]), calls[|calls| - 1]);
    }
  }

  /** The request body carries none of the undeclared columns that steer a trip: status, booked seats, closing flag, driver. */
  predicate Declared(c: Call) {
    && (c.Create? ==> c.newTrip.bookedSeats.None? && c.newTrip.bookingsClosed.None?)
    && (c.Update? ==> && c.edit.extra.status.None? && c.edit.extra.bookedSeats.None? && c.edit.extra.bookingsClosed.None?
                      && c.edit.extra.driver.None?)
  }

  /** Such calls never miscount, so every run of them keeps the invariant. */
  lemma DeclaredCountsRight(db: Db, calls: seq<Call>)
    requires forall k :: 0 <= k < |calls| ==> Declared(calls[k])
    ensures CountsRight(db, calls)
  {
    hide Run;
    forall k | 0 <= k < |calls| ensures !Miscounts(Run(db, calls[..k]), calls[k]) {
      assert Declared(calls[k]);
    }
  }

  // ---- Seats ----

  /**
   * For every trip that is not cancelled, bookedSeats is the seats of its pending intents plus the seats of its bookings that
   * are not cancelled, over every run in which no call miscounts.
   */
  lemma BookedSeatsAreTaken(start: map<Id, real>, calls: seq<Call>, t: Id)
    requires CountsRight(Fresh(start), calls)
    ensures var db := Run(Fresh(start), calls);
            t in db.trips && db.trips[t].status != Cancelled ==>
              && db.trips[t].bookedSeats == SumInt(db.intents, IntentSeats(t)) + SumInt(db.bookings, LiveSeats(t))
              && db.trips[t].bookedSeats >= 0
  {
    hide Run, MoneyInv, Miscounts;
    FreshInv(start);
    RunKeepsInv(start, Fresh(start), calls);
    var db := Run(Fresh(start), calls);
    if t in db.trips && db.trips[t].status != Cancelled {
      forall i | 0 <= i < |db.bookings| ensures BookingWeight(db.bookings[i], t) == LiveWeight(db.bookings[i], t) {
        assert BookingLinked(db.trips, db.bookings[i]);
      }
      SumIntAgree(db.bookings, BookingSeats(t), LiveSeats(t));
      SumIntNonNegative(db.intents, IntentSeats(t));
      SumIntNonNegative(db.bookings, LiveSeats(t));
    }
  }

  /** Over every run, whatever the bodies carry, no passenger holds two pending intents on one trip. */
  lemma {:induction false} OneHoldAlways(start: map<Id, real>, calls: seq<Call>)
    ensures HoldsOk(Run(Fresh(start), calls))
  {
    hide Step, HoldsOk;
    if calls == [] {
      FreshInv(start);
    } else {
      OneHoldAlways(start, calls[..|calls| - 1]);
      StepKeepsHeld(Run(Fresh(start), calls[..|calls| - 1]), calls[|calls| - 1]);
    }
  }

  lemma {:induction false} SumIntAgree<T>(rows: seq<T>, f: T -> int, g: T -> int)
    requires forall i :: 0 <= i < |rows| ==> f(rows[i]) == g(rows[i])
    ensures SumInt(rows, f) == SumInt(rows, g)
  {
    if rows != [] {
      SumIntAgree(rows[..|rows| - 1], f, g);
    }
  }

  /**
   * An accepted updateTrip leaves the trip with more booked seats than seats: it sets fewer seats than are booked, or its body
   * carries a count of booked seats above the seats. An accepted createTrip whose body carries such a count does the same.
   */
  ghost predicate Overbooks(db: Db, c: Call) {
    match c
    case Create(d, verified, t) => Creates(db, d, verified, t) && OrElse(t.bookedSeats, 0) > t.totalSeats
    case Update(d, id, e) =>
      && Updates(db, d, id, e)
      && OrElse(e.extra.bookedSeats, db.trips[id].bookedSeats) > OrElse(e.totalSeats, db.trips[id].totalSeats)
    case _ => false
  }

  /** Every call keeps bookedSeats within totalSeats, whichever count bookTrip's re-read sees, except the ones that overbook. */
  lemma StepKeepsCap(db: Db, c: Call)
    requires SeatCap(db.trips)
    ensures SeatCap(Step(db, c).0.trips) <==> !Overbooks(db, c)
  {
    hide CreateTrip, Advance, SetBookingStatus, UpdateTrip, ReviseTrip;
    hide CompleteTrip, CancelTrip, WithdrawTrip, SettleTrip;
    hide BookTrip, InitiatePayment, VerifyPayment, Board, CancelBooking, SeatCap;
    match c
    case Book(o, s) => BookCap(db, o, s);
    case Create(_, _, _) => BodyCap(db, c);
    case Update(_, _, _) => BodyCap(db, c);
    case Scan(d, code, tok) => BoardRow(db, d, code, tok);
    case CancelOne(p, code, now, ok) => CancelCap(db, p, code, now, ok);
    case Verify(_, _, _, _) => PaymentCap(db, c);
    case Pay(_, _, _, _, _, _) => PaymentCap(db, c);
    case _ => TripCap(db, c);
  }

  lemma PaymentCap(db: Db, c: Call)
    requires c.Verify? || c.Pay?
    ensures Step(db, c).0.trips == db.trips
  {
    hide CreateTrip, Advance, SetBookingStatus, UpdateTrip, ReviseTrip;
    hide CompleteTrip, CancelTrip, WithdrawTrip, SettleTrip;
    hide BookTrip, Board, CancelBooking;
  }

  lemma CancelCap(db: Db, p: Option<Id>, code: string, now: int, ok: bool)
    requires SeatCap(db.trips)
    ensures SeatCap(CancelBooking(db, p, code, now, ok).0.trips)
  {
  }

  /** The calls that rewrite one trip's status, open flag or terms. */
  lemma TripCap(db: Db, c: Call)
    requires SeatCap(db.trips)
    requires c.Activate? || c.Start? || c.Toggle? || c.Revise? || c.Complete? || c.CancelAll? || c.Withdraw? || c.Settle?
    ensures SeatCap(Step(db, c).0.trips)
  {
    hide BookTrip, InitiatePayment, VerifyPayment, Board, CancelBooking, CreateTrip, UpdateTrip;
    hide CancelledRows, RefundsMade, FailedCodes, RefundEscrows, MapRows, HasConfirmed;
    var trips' := Step(db, c).0.trips;
    if trips' != db.trips {
      assert trips' == db.trips[c.trip := trips'[c.trip]] && trips'[c.trip].bookedSeats <= trips'[c.trip].totalSeats;
    }
  }

  lemma BodyCap(db: Db, c: Call)
    requires SeatCap(db.trips) && (c.Create? || c.Update?)
    ensures SeatCap(Step(db, c).0.trips) <==> !Overbooks(db, c)
  {
    hide Advance, SetBookingStatus, ReviseTrip, HasConfirmed;
    hide CompleteTrip, CancelTrip, WithdrawTrip, SettleTrip;
    hide BookTrip, InitiatePayment, VerifyPayment, Board, CancelBooking;
    var trips' := Step(db, c).0.trips;
    var id := if c.Create? then c.newTrip.id else c.trip;
    if trips' != db.trips {
      assert trips' == db.trips[id := trips'[id]];
      assert SeatCap(trips') <==> trips'[id].bookedSeats <= trips'[id].totalSeats;
    }
  }

  lemma {:induction false} RunKeepsCap(start: map<Id, real>, calls: seq<Call>)
    requires forall k :: 0 <= k < |calls| ==> !Overbooks(Run(Fresh(start), calls[..k]), calls[k])
    ensures SeatCap(Run(Fresh(start), calls).trips)
  {
    hide Step, Overbooks;
    if calls != [] {
      var n := |calls| - 1;
      var before := calls[..n];
      forall k | 0 <= k < |before| ensures !Overbooks(Run(Fresh(start), before[..k]), before[k]) {
        assert before[..k] == calls[..k];
      }
      RunKeepsCap(start, before);
      StepKeepsCap(Run(Fresh(start), before), calls[n]);
    }
  }

  // ---- Money ----

  function CreditTo(db: Db, c: Call, driver: Id): real {
    if c.Scan? && c.driver == Some(driver) && Step(db, c).1.Done? then Step(db, c).1.credited else 0.0
  }

  /** The sum of the `credited` replies a driver got over a run. */
  function Earned(db: Db, calls: seq<Call>, driver: Id): real {
    if calls == [] then 0.0
    else Earned(db, calls[..|calls| - 1], driver) + CreditTo(Run(db, calls[..|calls| - 1]), calls[|calls| - 1], driver)
  }

  lemma StepCredits(db: Db, c: Call, driver: Id)
    requires Money.EscrowInv(db) && driver in db.balances
    ensures driver in Step(db, c).0.balances
    ensures Step(db, c).0.balances[driver] == db.balances[driver] + CreditTo(db, c, driver)
  {
    hide CreateTrip, Advance, SetBookingStatus, UpdateTrip, ReviseTrip;
    hide CompleteTrip, CancelTrip, WithdrawTrip, SettleTrip;
    hide BookTrip, InitiatePayment, VerifyPayment, Board, CancelBooking;
    hide Money.EscrowTables;
    if c.Scan? {
      Money.BoardEffect(db, c.driver, c.code, c.token);
    } else if c.Verify? {
      Money.VerifyBalances(db, c.reference, c.verdict, c.newToken, c.feePercent);
    } else {
      Money.StepFrame(db, c);
    }
  }

  lemma {:induction false} RunCredits(start: map<Id, real>, db: Db, calls: seq<Call>, driver: Id)
    requires MoneyInv(start, db) && driver in db.balances
    ensures driver in Run(db, calls).balances
    ensures Run(db, calls).balances[driver] == db.balances[driver] + Earned(db, calls, driver)
  {
    if calls != [] {
      var before := calls[..|calls| - 1];
      RunKeepsMoney(start, db, before);
      RunCredits(start, db, before, driver);
      StepCredits(Run(db, before), calls[|calls| - 1], driver);
    }
  }

  lemma RunConserves(start: map<Id, real>, calls: seq<Call>)
    ensures Money.Conserved(start, Run(Fresh(start), calls).balances, Run(Fresh(start), calls).escrows)
  {
    MoneyFromFresh(start, calls);
  }

  /**
   * Escrow conservation: a driver's balance is the opening balance plus the net of the released escrows,
   * and that same sum is what the scan replies reported as credited.
   */
  lemma BalanceIsReleasedEscrow(start: map<Id, real>, calls: seq<Call>, driver: Id)
    requires driver in start
    ensures var db := Run(Fresh(start), calls);
            && driver in db.balances
            && db.balances[driver] == start[driver] + SumReal(db.escrows, Money.ReleasedTo(driver))
            && Earned(Fresh(start), calls, driver) == SumReal(db.escrows, Money.ReleasedTo(driver))
  {
    RunConserves(start, calls);
    FreshInv(start);
    RunCredits(start, Fresh(start), calls, driver);
  }

  /** The booking can never be boarded any more. */
  predicate Settled(b: Booking) {
    b.status == BookingCancelled || b.status == BookingCompleted || b.payment == Refunded
  }

  /** Row i of the bookings and escrows in db' still is the settled booking it was in db. */
  predicate StillSettled(db: Db, db': Db, i: nat) {
    && i < |db.bookings| && i < |db.escrows| && i < |db'.bookings| && i < |db'.escrows|
    && db'.bookings[i].code == db.bookings[i].code && Settled(db'.bookings[i])
    && db'.escrows[i] == db.escrows[i]
  }

  lemma SettledNotBoarded(db: Db, driver: Option<Id>, code: string, token: Option<string>, i: nat)
    requires Money.EscrowInv(db) && i < |db.bookings| && Settled(db.bookings[i])
    ensures StillSettled(db, Board(db, driver, code, token).0, i)
  {
    Money.BoardEffect(db, driver, code, token);
  }

  lemma SettledAfterCancelTrip(db: Db, driver: Option<Id>, trip: Id, fails: set<nat>, i: nat)
    requires |db.escrows| == |db.bookings| && i < |db.bookings| && Settled(db.bookings[i])
    ensures StillSettled(db, CancelTrip(db, driver, trip, fails).0, i)
  {
    assert Settled(DriverCancelled(db.bookings[i], trip, i in fails));
  }

  lemma SettledNotWithdrawn(db: Db, driver: Option<Id>, trip: Id, reasonGiven: bool, i: nat)
    requires Money.EscrowInv(db) && i < |db.bookings| && Settled(db.bookings[i])
    ensures StillSettled(db, WithdrawTrip(db, driver, trip, reasonGiven).0, i)
  {
    forall j | 0 <= j < |db.bookings| ensures db.escrows[j].booking == db.bookings[j].code {
      assert Money.Mirrors(db.trips, db.balances, db.bookings[j], db.escrows[j]);
    }
    Money.WithdrawnEscrows(db.bookings, db.escrows, trip, |db.bookings|);
  }

  lemma SettledAfterClosing(db: Db, driver: Option<Id>, trip: Id, i: nat)
    requires |db.escrows| == |db.bookings| && i < |db.bookings| && Settled(db.bookings[i])
    ensures StillSettled(db, CompleteTrip(db, driver, trip).0, i)
    ensures StillSettled(db, SettleTrip(db, driver, trip).0, i)
  {
  }

  lemma SettledAfterCancelBooking(db: Db, passenger: Option<Id>, code: string, now: int, refundOk: bool, i: nat)
    requires |db.escrows| == |db.bookings| && i < |db.bookings| && Settled(db.bookings[i])
    ensures StillSettled(db, CancelBooking(db, passenger, code, now, refundOk).0, i)
  {
  }

  lemma SettledAfterVerify(db: Db, reference: string, v: Verdict, token: string, feePercent: real, i: nat)
    requires |db.escrows| == |db.bookings| && i < |db.bookings| && Settled(db.bookings[i])
    ensures StillSettled(db, VerifyPayment(db, reference, v, token, feePercent).0, i)
  {
  }

  lemma SettledAfterBook(db: Db, o: Order, s: Setting, i: nat)
    requires |db.escrows| == |db.bookings| && i < |db.bookings| && Settled(db.bookings[i])
    ensures StillSettled(db, BookTrip(db, o, s).0, i)
  {
    BookOutcomes(db, o, s);
  }

  lemma SettledAfterTripCall(db: Db, c: Call, i: nat)
    requires |db.escrows| == |db.bookings| && i < |db.bookings| && Settled(db.bookings[i])
    requires c.Create? || c.Activate? || c.Start? || c.Toggle? || c.Update? || c.Revise? || c.Pay?
    ensures StillSettled(db, Step(db, c).0, i)
  {
    hide BookTrip, VerifyPayment, Board, CancelBooking;
    hide CompleteTrip, CancelTrip, WithdrawTrip, SettleTrip;
  }

  lemma SettledStays(db: Db, c: Call, i: nat)
    requires Money.EscrowInv(db) && i < |db.bookings| && Settled(db.bookings[i])
    ensures StillSettled(db, Step(db, c).0, i)
  {
    hide CreateTrip, Advance, SetBookingStatus, UpdateTrip, ReviseTrip;
    hide CompleteTrip, CancelTrip, WithdrawTrip, SettleTrip;
    hide BookTrip, InitiatePayment, VerifyPayment, Board, CancelBooking;
    hide Settled, StillSettled;
    match c
    case Book(o, s) => SettledAfterBook(db, o, s, i);
    case Verify(r, v, tok, fee) => SettledAfterVerify(db, r, v, tok, fee, i);
    case Scan(d, code, tok) => SettledNotBoarded(db, d, code, tok, i);
    case Complete(d, t) => SettledAfterClosing(db, d, t, i);
    case CancelAll(d, t, fails) => SettledAfterCancelTrip(db, d, t, fails, i);
    case CancelOne(p, code, now, ok) => SettledAfterCancelBooking(db, p, code, now, ok, i);
    case Withdraw(d, t, reason) => SettledNotWithdrawn(db, d, t, reason, i);
    case Settle(d, t) => SettledAfterClosing(db, d, t, i);
    case _ => SettledAfterTripCall(db, c, i);
  }

  /** No late credit: once a booking is cancelled, completed or refunded, no continuation releases its escrow. */
  lemma {:induction false} NoLateCredit(start: map<Id, real>, db: Db, calls: seq<Call>, i: nat)
    requires MoneyInv(start, db) && i < |db.bookings| && Settled(db.bookings[i])
    ensures StillSettled(db, Run(db, calls), i)
  {
    if calls != [] {
      var before := calls[..|calls| - 1];
      NoLateCredit(start, db, before, i);
      RunKeepsMoney(start, db, before);
      SettledStays(Run(db, before), calls[|calls| - 1], i);
    }
  }

  lemma CompletedIsSettled(db: Db, driver: Option<Id>, trip: Id, i: nat)
    requires CompleteTrip(db, driver, trip).1.Done? && |db.escrows| == |db.bookings|
    requires i < |db.bookings| && ConfirmedOn(db.bookings[i], trip)
    ensures StillSettled(db, CompleteTrip(db, driver, trip).0, i)
  {
  }

  /** completeTrip closes every confirmed booking of the trip, so an escrow still held then stays held for ever. */
  lemma HeldAtCompletionStaysHeld(start: map<Id, real>, db: Db, driver: Option<Id>, trip: Id, calls: seq<Call>, i: nat)
    requires MoneyInv(start, db) && CompleteTrip(db, driver, trip).1.Done?
    requires i < |db.bookings| && ConfirmedOn(db.bookings[i], trip)
    ensures StillSettled(db, Run(CompleteTrip(db, driver, trip).0, calls), i)
  {
    hide CompleteTrip, Money.RefundInv, Money.Conserved;
    CompletedIsSettled(db, driver, trip, i);
    CompleteKeepsMoney(start, db, driver, trip);
    NoLateCredit(start, CompleteTrip(db, driver, trip).0, calls, i);
  }

  lemma CompleteKeepsMoney(start: map<Id, real>, db: Db, driver: Option<Id>, trip: Id)
    requires MoneyInv(start, db)
    ensures MoneyInv(start, CompleteTrip(db, driver, trip).0)
  {
    hide MoneyInv, CompleteTrip;
    StepKeepsMoney(start, db, Complete(driver, trip));
  }

  /** A successful scan pays the escrow of exactly that booking the first time, and nothing ever after. */
  lemma ScanPaysOnce(db: Db, driver: Option<Id>, code: string, token: Option<string>)
    requires Money.EscrowInv(db) && Board(db, driver, code, token).1.Done?
    ensures var (db', reply) := Board(db, driver, code, token);
            var i := IndexOf(db.bookings, Coded(code));
            && 0 <= i < |db.escrows| && db.escrows[i].booking == code
            && reply.credited == (if db.bookings[i].ticket == Scanned then 0.0 else db.escrows[i].net)
            && Board(db', driver, code, token) == (db', OK)
  {
    Money.BoardEffect(db, driver, code, token);
    var db' := Board(db, driver, code, token).0;
    var i := IndexOf(db.bookings, Coded(code));
    assert Money.Mirrors(db.trips, db.balances, db.bookings[i], db.escrows[i]);
    if db' != db {
      SameIndex(db.bookings, db.bookings[i := db.bookings[i].(ticket := Scanned)], code);
    }
  }

  lemma SameIndex(bookings: seq<Booking>, bookings': seq<Booking>, code: string)
    requires |bookings'| == |bookings| && forall i :: 0 <= i < |bookings| ==> bookings'[i].code == bookings[i].code
    ensures IndexOf(bookings', Coded(code)) == IndexOf(bookings, Coded(code))
  {
  }

  /**
   * Over every run the gateway accepts at most one refund per booking, REFUNDED says exactly that it did,
   * and the refunds add up to what the refunded bookings paid.
   */
  lemma RefundedOnce(start: map<Id, real>, calls: seq<Call>)
    ensures var db := Run(Fresh(start), calls);
            && (forall i :: 0 <= i < |db.bookings| ==>
                  && db.bookings[i].reference.Some?
                  && Money.RefundCount(db.refunds, db.bookings[i].reference.value)
                     == if db.bookings[i].payment == Refunded then 1 else 0)
            && (forall i, j :: 0 <= i < j < |db.bookings| ==> db.bookings[i].reference != db.bookings[j].reference)
            && Money.RefundTotal(db.refunds) == SumReal(db.bookings, Money.GivenBackOf())
  {
    MoneyFromFresh(start, calls);
    var db := Run(Fresh(start), calls);
    forall i | 0 <= i < |db.bookings|
      ensures Money.RefundCount(db.refunds, db.bookings[i].reference.value) == Money.FlagOf(db.bookings[i])
    {
    }
  }

  /**
   * An escrow marked refunded was never refunded: only the driver module's cancelTrip marks it, without calling the
   * gateway, and no later call refunds the booking.
   */
  lemma EscrowRefundedMeansNoRefund(start: map<Id, real>, calls: seq<Call>, i: nat)
    ensures var db := Run(Fresh(start), calls);
            i < |db.escrows| && db.escrows[i].status == EscrowRefunded ==>
              && i < |db.bookings| && db.bookings[i].status == BookingCancelled && db.bookings[i].payment == Paid
              && db.bookings[i].reference.Some? && Money.RefundCount(db.refunds, db.bookings[i].reference.value) == 0
  {
    MoneyFromFresh(start, calls);
    var db := Run(Fresh(start), calls);
    if i < |db.escrows| {
      assert Money.Mirrors(db.trips, db.balances, db.bookings[i], db.escrows[i]);
      assert Money.RefundCount(db.refunds, db.bookings[i].reference.value) == Money.FlagOf(db.bookings[i]);
    }
  }

  // ---- cancelTrip's loop, for every table and every pattern of gateway failures ----

  function FailedPositions(bookings: seq<Booking>, trip: Id, fails: set<nat>, n: nat): seq<nat>
    requires n <= |bookings|
  {
    if n == 0 then []
    else
      FailedPositions(bookings, trip, fails, n - 1) +
      if Failing(bookings[n - 1], trip, (n - 1) in fails) then [n - 1] else []
  }

  predicate Failing(b: Booking, trip: Id, fails: bool) { Attempted(b, trip) && fails }

  /** `codes` are the codes of the rows at the increasing positions `at`, all below n. */
  ghost predicate Lists(at: seq<nat>, codes: seq<string>, bookings: seq<Booking>, n: nat)
    requires n <= |bookings|
  {
    && |codes| == |at|
    && (forall k :: 0 <= k < |at| ==> at[k] < n && codes[k] == bookings[at[k]].code)
    && (forall k, l :: 0 <= k < l < |at| ==> at[k] < at[l])
  }

  lemma ListsOneMore(at: seq<nat>, codes: seq<string>, bookings: seq<Booking>, n: nat)
    requires 0 < n <= |bookings| && Lists(at, codes, bookings, n - 1)
    ensures Lists(at, codes, bookings, n)
    ensures Lists(at + [n - 1], codes + [bookings[n - 1].code], bookings, n)
    ensures (n - 1) !in at
  {
  }

  lemma NoneFailed(bookings: seq<Booking>, trip: Id, fails: set<nat>)
    ensures FailedPositions(bookings, trip, fails, 0) == []
    ensures Lists(FailedPositions(bookings, trip, fails, 0), FailedCodes(bookings, trip, fails, 0), bookings, 0)
  {
  }

  lemma FailedSnoc(bookings: seq<Booking>, trip: Id, fails: set<nat>, n: nat)
    requires 0 < n <= |bookings|
    ensures var at, codes := FailedPositions(bookings, trip, fails, n - 1), FailedCodes(bookings, trip, fails, n - 1);
            if Failing(bookings[n - 1], trip, (n - 1) in fails)
            then FailedPositions(bookings, trip, fails, n) == at + [n - 1]
                 && FailedCodes(bookings, trip, fails, n) == codes + [bookings[n - 1].code]
            else FailedPositions(bookings, trip, fails, n) == at && FailedCodes(bookings, trip, fails, n) == codes
  {
  }

  /** failedRefunds lists, in table order, exactly the paid-with-reference open bookings whose call threw. */
  lemma {:induction false} FailedRefundsExact(bookings: seq<Booking>, trip: Id, fails: set<nat>, n: nat)
    requires n <= |bookings|
    ensures Lists(FailedPositions(bookings, trip, fails, n), FailedCodes(bookings, trip, fails, n), bookings, n)
    ensures forall i :: 0 <= i < n ==> (i in FailedPositions(bookings, trip, fails, n) <==> Failing(bookings[i], trip, i in fails))
  {
    hide Lists, FailedPositions, FailedCodes, Failing;
    if n == 0 {
      NoneFailed(bookings, trip, fails);
    } else {
      FailedRefundsExact(bookings, trip, fails, n - 1);
      ListsOneMore(FailedPositions(bookings, trip, fails, n - 1), FailedCodes(bookings, trip, fails, n - 1), bookings, n);
      FailedSnoc(bookings, trip, fails, n);
    }
  }

  function Due(b: Booking, trip: Id): real { if Attempted(b, trip) then b.paid else 0.0 }

  function TotalDue(bookings: seq<Booking>, trip: Id, n: nat): real
    requires n <= |bookings|
  {
    if n == 0 then 0.0 else TotalDue(bookings, trip, n - 1) + Due(bookings[n - 1], trip)
  }

  /** What the bookings whose refund call threw had paid. */
  function TotalFailed(bookings: seq<Booking>, trip: Id, fails: set<nat>, n: nat): real
    requires n <= |bookings|
  {
    if n == 0 then 0.0
    else TotalFailed(bookings, trip, fails, n - 1) + if (n - 1) in fails then Due(bookings[n - 1], trip) else 0.0
  }

  /** Refunded plus failed is what the passengers of the trip had paid. */
  lemma {:induction false} RefundsPlusFailures(bookings: seq<Booking>, trip: Id, fails: set<nat>, n: nat)
    requires n <= |bookings|
    ensures Money.RefundTotal(RefundsMade(bookings, trip, fails, n)) + TotalFailed(bookings, trip, fails, n)
            == TotalDue(bookings, trip, n)
  {
    hide RefundsMade, Money.RefundTotal, Attempted;
    if n == 0 {
      Money.NothingMade(bookings, trip, fails);
    } else {
      RefundsPlusFailures(bookings, trip, fails, n - 1);
      Money.RefundsMadeSnoc(bookings, trip, fails, n);
    }
  }

  /** An accepted cancelTrip: open bookings of the trip end cancelled, all other rows stay, and the money adds up. */
  lemma CancelTripSettles(db: Db, driver: Option<Id>, trip: Id, fails: set<nat>)
    requires CancelTrip(db, driver, trip, fails).1.Done?
    ensures var (db', reply) := CancelTrip(db, driver, trip, fails);
            var n := |db.bookings|;
            && |db'.bookings| == n
            && (forall i :: 0 <= i < n ==>
                  if db.bookings[i].trip == trip && Open(db.bookings[i])
                  then db'.bookings[i].status == BookingCancelled
                       && (db'.bookings[i].payment == Refunded <==>
                           db.bookings[i].payment == Refunded || (Refundable(db.bookings[i]) && i !in fails))
                  else db'.bookings[i] == db.bookings[i])
            && reply.failedRefunds == FailedCodes(db.bookings, trip, fails, n)
            && Money.RefundTotal(db'.refunds) == Money.RefundTotal(db.refunds) + TotalDue(db.bookings, trip, n)
                                                 - TotalFailed(db.bookings, trip, fails, n)
  {
    var n := |db.bookings|;
    RefundsPlusFailures(db.bookings, trip, fails, n);
    SumRealConcat(db.refunds, RefundsMade(db.bookings, trip, fails, n), Money.AmountOf());
  }
}
