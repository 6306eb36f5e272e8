/**
 * Two guards the calls lack. bookTrip and verifyPayment never look at the trip's status, so a passenger can pay for a seat on
 * a trip that has ended; and cancelBooking's two-hour window is measured against a time that is not a date.
 */
module LedgerGuards {
  import opened Common
  import opened Tables
  import opened Ledger
  import opened LedgerSeats
  import opened LedgerLifecycle
  import LedgerBothWays
  import LedgerRuns
  import Money = LedgerMoney

  // ---- Seats on ended trips ----

  /** Booking i is confirmed, and its trip is completed or cancelled. */
  predicate Stranded(db: Db, i: nat) {
    && i < |db.bookings| && db.bookings[i].status == Confirmed
    && db.bookings[i].trip in db.trips && Ended(db.trips[db.bookings[i].trip].status)
  }

  /** The pending payment under the reference is for an intent whose trip has ended. */
  predicate ForEndedTrip(db: Db, reference: string) {
    var p := IndexOf(db.payments, PendingRef(reference));
    p >= 0 &&
    var k := IndexOf(db.intents, IntentCoded(db.payments[p].intent));
    k >= 0 && db.intents[k].trip in db.trips && Ended(db.trips[db.intents[k].trip].status)
  }

  /** The call verifies such a payment past every guard, and so writes booking i. */
  predicate PaysForEnded(db: Db, c: Call, i: nat) {
    c.Verify? && i == |db.bookings| && Confirms(db, c.reference, c.verdict) && ForEndedTrip(db, c.reference)
  }

  /** The call is the passenger's own cancellation of booking i, and passes the guards. */
  predicate CancelledByRider(db: Db, c: Call, i: nat) {
    i < |db.bookings| && c.CancelOne? && LedgerBothWays.Cancels(db, c, i)
  }

  /** What keeps completion and settlement from leaving a confirmed row behind: every confirmed booking is paid. */
  ghost predicate ConfirmedPaid(bookings: seq<Booking>) {
    forall i :: 0 <= i < |bookings| ==> bookings[i].status == Confirmed ==> bookings[i].payment == Paid
  }

  /** b' is b with its status perhaps moved; only an open booking's status moves, and never back to confirmed. */
  predicate StatusMoved(b: Booking, b': Booking) {
    && b'.trip == b.trip
    && (b'.status == Confirmed ==> b.status == Confirmed && b'.payment == b.payment)
  }

  lemma ClosingStatuses(db: Db, driver: Option<Id>, trip: Id, reasonGiven: bool, i: nat)
    requires i < |db.bookings|
    ensures var rows := CompleteTrip(db, driver, trip).0.bookings; i < |rows| && StatusMoved(db.bookings[i], rows[i])
    ensures var rows := SettleTrip(db, driver, trip).0.bookings; i < |rows| && StatusMoved(db.bookings[i], rows[i])
    ensures var rows := WithdrawTrip(db, driver, trip, reasonGiven).0.bookings; i < |rows| && StatusMoved(db.bookings[i], rows[i])
  {
    hide RefundEscrows;
  }

  lemma CancelStatuses(db: Db, c: Call, i: nat)
    requires i < |db.bookings| && (c.CancelAll? || c.CancelOne?)
    ensures i < |Step(db, c).0.bookings| && StatusMoved(db.bookings[i], Step(db, c).0.bookings[i])
  {
    hide CreateTrip, Advance, SetBookingStatus, UpdateTrip, ReviseTrip;
    hide CompleteTrip, WithdrawTrip, SettleTrip, RefundsMade, FailedCodes;
    hide BookTrip, InitiatePayment, VerifyPayment, Board;
  }

  lemma BoardStatuses(db: Db, driver: Option<Id>, code: string, token: Option<string>, i: nat)
    requires i < |db.bookings|
    ensures var rows := Board(db, driver, code, token).0.bookings; i < |rows| && StatusMoved(db.bookings[i], rows[i])
  {
    hide Board;
    BoardRow(db, driver, code, token);
    LedgerBothWays.BoardMoves(db, driver, code, token, i);
  }

  lemma StatusAfter(db: Db, c: Call, i: nat)
    requires i < |db.bookings|
    ensures i < |Step(db, c).0.bookings| && StatusMoved(db.bookings[i], Step(db, c).0.bookings[i])
  {
    hide CreateTrip, Advance, SetBookingStatus, UpdateTrip, ReviseTrip;
    hide CompleteTrip, CancelTrip, WithdrawTrip, SettleTrip;
    hide BookTrip, InitiatePayment, VerifyPayment, Board, CancelBooking;
    match c
    case Book(o, s) => Money.BookFrame(db, o, s);
    case Pay(p, t, r, now, coupons, ok) => Money.PayFrame(db, p, t, r, now, coupons, ok);
    case Verify(r, v, tok, fee) => LedgerBothWays.VerifyAppends(db, r, v, tok, fee);
    case Scan(d, code, tok) => BoardStatuses(db, d, code, tok, i);
    case Complete(d, t) => ClosingStatuses(db, d, t, true, i);
    case Settle(d, t) => ClosingStatuses(db, d, t, true, i);
    case Withdraw(d, t, why) => ClosingStatuses(db, d, t, why, i);
    case CancelAll(_, _, _) => CancelStatuses(db, c, i);
    case CancelOne(_, _, _, _) => CancelStatuses(db, c, i);
    case _ => Money.OtherRefunds(db, c);
  }

  /** A row that was not there before is confirmed, paid, and comes from a verified payment. */
  lemma NewRow(db: Db, c: Call)
    ensures var rows := Step(db, c).0.bookings;
            |rows| > |db.bookings| ==> c.Verify? && |rows| == |db.bookings| + 1 && rows[|db.bookings|].payment == Paid
  {
    hide CreateTrip, Advance, SetBookingStatus, UpdateTrip, ReviseTrip;
    hide CompleteTrip, CancelTrip, WithdrawTrip, SettleTrip;
    hide BookTrip, InitiatePayment, VerifyPayment, Board, CancelBooking;
    if c.Verify? {
      LedgerBothWays.VerifyAppends(db, c.reference, c.verdict, c.newToken, c.feePercent);
    } else {
      Money.NoNewRow(db, c);
    }
  }

  lemma VerifiedRow(db: Db, reference: string, v: Verdict, token: string, feePercent: real)
    ensures var db' := VerifyPayment(db, reference, v, token, feePercent).0;
            && (|db'.bookings| > |db.bookings| <==> Confirms(db, reference, v))
            && (|db'.bookings| > |db.bookings| ==> (Stranded(db', |db.bookings|) <==> ForEndedTrip(db, reference)))
  {
  }

  lemma NewRowStranded(db: Db, c: Call)
    ensures Stranded(Step(db, c).0, |db.bookings|) <==> PaysForEnded(db, c, |db.bookings|)
  {
    hide CreateTrip, Advance, SetBookingStatus, UpdateTrip, ReviseTrip;
    hide CompleteTrip, CancelTrip, WithdrawTrip, SettleTrip;
    hide BookTrip, InitiatePayment, VerifyPayment, Board, CancelBooking, ForEndedTrip, Confirms;
    NewRow(db, c);
    if c.Verify? {
      VerifiedRow(db, c.reference, c.verdict, c.newToken, c.feePercent);
    }
  }

  lemma StepConfirmedPaid(db: Db, c: Call)
    requires ConfirmedPaid(db.bookings)
    ensures ConfirmedPaid(Step(db, c).0.bookings)
  {
    hide Step;
    var rows := Step(db, c).0.bookings;
    NewRow(db, c);
    forall i | 0 <= i < |rows| ensures rows[i].status == Confirmed ==> rows[i].payment == Paid {
      if i < |db.bookings| { StatusAfter(db, c, i); }
    }
  }

  lemma {:induction false} RunConfirmedPaid(start: map<Id, real>, calls: seq<Call>)
    ensures ConfirmedPaid(Run(Fresh(start), calls).bookings)
  {
    hide Step;
    if calls != [] {
      RunConfirmedPaid(start, calls[..|calls| - 1]);
      StepConfirmedPaid(Run(Fresh(start), calls[..|calls| - 1]), calls[|calls| - 1]);
    }
  }

  /** A call that ends a live trip leaves none of its bookings confirmed. */
  lemma EndingClearsRows(db: Db, c: Call, i: nat)
    requires ConfirmedPaid(db.bookings) && i < |db.bookings| && db.bookings[i].trip in db.trips
    requires c.Complete? || c.Settle? || c.CancelAll? || c.Withdraw?
    requires Step(db, c).0.trips != db.trips && c.trip == db.bookings[i].trip
    ensures i < |Step(db, c).0.bookings| && Step(db, c).0.bookings[i].status != Confirmed
  {
    hide CreateTrip, Advance, SetBookingStatus, UpdateTrip, ReviseTrip;
    hide BookTrip, InitiatePayment, VerifyPayment, Board, CancelBooking;
    hide RefundsMade, FailedCodes, RefundEscrows;
  }

  /** A row of an ended trip loses its confirmation only by its passenger's cancellation. */
  lemma EndedRowStays(db: Db, c: Call, i: nat)
    requires i < |db.bookings| && db.bookings[i].trip in db.trips && Ended(db.trips[db.bookings[i].trip].status)
    requires db.bookings[i].status == Confirmed && !c.CancelOne?
    ensures i < |Step(db, c).0.bookings| && Step(db, c).0.bookings[i].status == Confirmed
  {
    hide CreateTrip, Advance, SetBookingStatus, UpdateTrip, ReviseTrip;
    hide BookTrip, InitiatePayment, VerifyPayment, Board, CancelBooking;
    hide RefundsMade, FailedCodes, RefundEscrows;
    match c
    case Book(o, s) => Money.BookFrame(db, o, s);
    case Pay(p, t, r, now, coupons, ok) => Money.PayFrame(db, p, t, r, now, coupons, ok);
    case Verify(r, v, tok, fee) => LedgerBothWays.VerifyAppends(db, r, v, tok, fee);
    case Scan(d, code, tok) => BoardRow(db, d, code, tok);
    case Complete(_, _) =>
    case Settle(_, _) =>
    case CancelAll(_, _, _) =>
    case Withdraw(_, _, _) =>
    case _ => Money.OtherRefunds(db, c);
  }

  lemma CancelOneRow(db: Db, c: Call, i: nat)
    requires i < |db.bookings| && c.CancelOne? && db.bookings[i].status == Confirmed
    ensures i < |Step(db, c).0.bookings|
    ensures Step(db, c).0.bookings[i].status == Confirmed <==> !CancelledByRider(db, c, i)
  {
    hide CreateTrip, Advance, SetBookingStatus, UpdateTrip, ReviseTrip;
    hide CompleteTrip, CancelTrip, WithdrawTrip, SettleTrip;
    hide BookTrip, InitiatePayment, VerifyPayment, Board;
  }

  lemma TripAfter(db: Db, c: Call, t: Id)
    requires t in db.trips
    ensures t in Step(db, c).0.trips
    requires HasConfirmed(db.bookings, t)
    ensures Ended(db.trips[t].status) ==> Ended(Step(db, c).0.trips[t].status)
    ensures !Ended(db.trips[t].status) && Ended(Step(db, c).0.trips[t].status)
            ==> (c.Complete? || c.Settle? || c.CancelAll? || c.Withdraw?) && c.trip == t && Step(db, c).0.trips != db.trips
  {
    hide Step, HasConfirmed;
    StatusMoves(db, c, t);
  }

  /**
   * For every call: a booking comes to stand confirmed on an ended trip exactly when a payment for it is verified after the
   * end, and leaves that state exactly when its passenger cancels it.
   */
  lemma StepStrands(db: Db, c: Call, i: nat)
    requires ConfirmedPaid(db.bookings) && forall j :: 0 <= j < |db.bookings| ==> db.bookings[j].trip in db.trips
    ensures Stranded(Step(db, c).0, i) <==> (Stranded(db, i) && !CancelledByRider(db, c, i)) || PaysForEnded(db, c, i)
  {
    hide Step, CancelledByRider, ForEndedTrip;
    NewRow(db, c);
    if i == |db.bookings| {
      NewRowStranded(db, c);
    } else if i < |db.bookings| {
      var t := db.bookings[i].trip;
      StatusAfter(db, c, i);
      if db.bookings[i].status == Confirmed {
        assert ConfirmedOn(db.bookings[i], t);
        TripAfter(db, c, t);
        if !Ended(db.trips[t].status) {
          if Ended(Step(db, c).0.trips[t].status) { EndingClearsRows(db, c, i); }
        } else if c.CancelOne? {
          CancelOneRow(db, c, i);
        } else {
          EndedRowStays(db, c, i);
          OnlyRidersCancel(db, c, i);
        }
      }
    }
  }

  lemma OnlyRidersCancel(db: Db, c: Call, i: nat)
    requires !c.CancelOne?
    ensures !CancelledByRider(db, c, i)
  {
    hide Step;
  }

  /** The same, from every state a run from a fresh database reaches. */
  lemma ReachableStrands(start: map<Id, real>, calls: seq<Call>, c: Call, i: nat)
    ensures var db := Run(Fresh(start), calls);
            Stranded(Step(db, c).0, i) <==> (Stranded(db, i) && !CancelledByRider(db, c, i)) || PaysForEnded(db, c, i)
  {
    hide Stranded, CancelledByRider, PaysForEnded, Step, Run;
    LedgerRuns.MoneyFromFresh(start, calls);
    RunConfirmedPaid(start, calls);
    var db := Run(Fresh(start), calls);
    forall j | 0 <= j < |db.bookings| ensures db.bookings[j].trip in db.trips {
      assert Money.Mirrors(db.trips, db.balances, db.bookings[j], db.escrows[j]);
    }
    StepStrands(db, c, i);
  }

  // ---- The cancellation window ----

  const WINDOW := 2 * 60 * 60 * 1000

  /** cancelBooking has nothing but the clock left to object to. */
  predicate Acceptable(db: Db, passenger: Option<Id>, code: string, refundOk: bool) {
    && passenger.Some? && IndexOf(db.bookings, CodedFor(code, passenger.value)) >= 0
    && var b := db.bookings[IndexOf(db.bookings, CodedFor(code, passenger.value))];
       Open(b) && (Refundable(b) ==> refundOk) && b.trip in db.trips
  }

  function TripOf(db: Db, passenger: Option<Id>, code: string, refundOk: bool): Trip
    requires Acceptable(db, passenger, code, refundOk)
  {
    db.trips[db.bookings[IndexOf(db.bookings, CodedFor(code, passenger.value))].trip]
  }

  predicate InWindow(t: Trip, now: int) { t.departure.Some? && t.departure.value - now < WINDOW }

  /**
   * Less than two hours before departure, or after it, an otherwise acceptable cancellation is refused exactly when the time
   * column parses as a date (in which case it is taken to be the departure itself).
   */
  lemma WindowBites(db: Db, passenger: Option<Id>, code: string, now: int, refundOk: bool)
    requires Acceptable(db, passenger, code, refundOk)
    requires var t := TripOf(db, passenger, code, refundOk); InWindow(t, now) && (t.timeAlone.Some? ==> t.timeAlone == t.departure)
    ensures CancelBooking(db, passenger, code, now, refundOk) == (db, Threw(BadRequest))
            <==> TripOf(db, passenger, code, refundOk).timeAlone.Some?
  {
  }

  /** Such a cancellation is accepted at every moment exactly when the column does not parse. */
  lemma ClockIgnored(db: Db, passenger: Option<Id>, code: string, refundOk: bool)
    requires Acceptable(db, passenger, code, refundOk)
    ensures (forall now :: CancelBooking(db, passenger, code, now, refundOk).1.Done?)
            <==> TripOf(db, passenger, code, refundOk).timeAlone.None?
  {
    var t := TripOf(db, passenger, code, refundOk);
    if t.timeAlone.Some? {
      assert CancelBooking(db, passenger, code, t.timeAlone.value, refundOk).1.Threw?;
    }
  }

  /** The call stores no time that parses as a date, which is so for every value of a time-only column. */
  predicate TimeOnly(c: Call) {
    && (c.Create? ==> c.newTrip.timeAlone.None?) && (c.Update? ==> c.edit.timeAlone.None?)
    && (c.Revise? ==> OrElse(c.revision.timeAlone, None).None?)
  }

  ghost predicate TimesOnly(trips: map<Id, Trip>) { forall t <- trips :: trips[t].timeAlone.None? }

  lemma CreateTimes(db: Db, c: Call, t: Id)
    requires TimesOnly(db.trips) && TimeOnly(c) && (c.Create? || c.Update? || c.Revise?) && t in Step(db, c).0.trips
    ensures Step(db, c).0.trips[t].timeAlone.None?
  {
    hide CompleteTrip, CancelTrip, WithdrawTrip, SettleTrip;
    hide BookTrip, InitiatePayment, VerifyPayment, Board, CancelBooking;
  }

  lemma StepTimes(db: Db, c: Call)
    requires TimesOnly(db.trips) && TimeOnly(c)
    ensures TimesOnly(Step(db, c).0.trips)
  {
    hide Step;
    var trips' := Step(db, c).0.trips;
    forall t | t in trips' ensures trips'[t].timeAlone.None? {
      if c.Create? || c.Update? || c.Revise? {
        CreateTimes(db, c, t);
      } else if c.Book? || c.Pay? || c.Verify? || c.Scan? || c.CancelOne? {
        PassengerCalls(db, c);
        assert SameTripColumns(db.trips[t], trips'[t]);
      } else {
        if t !in db.trips { NewTripIsUpcoming(db, c, t); }
        DriverCalls(db, c, t);
      }
    }
  }

  lemma {:induction false} RunTimes(start: map<Id, real>, calls: seq<Call>)
    requires forall k :: 0 <= k < |calls| ==> TimeOnly(calls[k])
    ensures TimesOnly(Run(Fresh(start), calls).trips)
  {
    hide Step, TimeOnly;
    if calls != [] {
      RunTimes(start, calls[..|calls| - 1]);
      StepTimes(Run(Fresh(start), calls[..|calls| - 1]), calls[|calls| - 1]);
    }
  }

  /** Over every run with a time-only column the window never refuses anybody, however late the cancellation comes. */
  lemma WindowNeverBites(start: map<Id, real>, calls: seq<Call>, passenger: Option<Id>, code: string, now: int, refundOk: bool)
    requires forall k :: 0 <= k < |calls| ==> TimeOnly(calls[k])
    requires Acceptable(Run(Fresh(start), calls), passenger, code, refundOk)
    ensures CancelBooking(Run(Fresh(start), calls), passenger, code, now, refundOk).1.Done?
  {
    hide Run;
    RunTimes(start, calls);
  }
}
