/**
 * The escrow's own promise (escro.entity.ts:9-14) is that a fare goes to the driver or back to the passenger. No cancelling
 * call looks at the ticket, so the promise fails; here is exactly when, for every call and over every run.
 */
module LedgerBothWays {
  import opened Common
  import opened Tables
  import opened Ledger
  import opened LedgerRuns
  import Money = LedgerMoney

  /** Booking i was refunded to the passenger and its escrow paid to the driver. */
  predicate BothWays(db: Db, i: nat) {
    && i < |db.bookings| && i < |db.escrows|
    && db.bookings[i].payment == Refunded && db.escrows[i].status == Released
  }

  /** A cancelBooking of row i that its guards let through, or such a cancelTrip of its trip whose refund call for the row returns. */
  predicate Cancels(db: Db, c: Call, i: nat)
    requires i < |db.bookings|
  {
    match c
    case CancelOne(p, code, now, refundOk) =>
      CancelsBooking(db, p, code, now, refundOk) && i == IndexOf(db.bookings, CodedFor(code, p.value))
    case CancelAll(d, t, fails) => CancelsTrip(db, d, t) && db.bookings[i].trip == t && i !in fails
    case _ => false
  }

  /** The guards are the replies: a call that passes them is answered, and no other is. */
  lemma CancelAccepted(db: Db, passenger: Option<Id>, code: string, now: int, refundOk: bool)
    ensures CancelBooking(db, passenger, code, now, refundOk).1.Done? <==> CancelsBooking(db, passenger, code, now, refundOk)
  {
  }

  lemma TripCancelAccepted(db: Db, driver: Option<Id>, trip: Id, fails: set<nat>, reasonGiven: bool)
    ensures CancelTrip(db, driver, trip, fails).1.Done? <==> CancelsTrip(db, driver, trip)
    ensures WithdrawTrip(db, driver, trip, reasonGiven).1.Done? <==> CancelsTrip(db, driver, trip) && reasonGiven
  {
  }

  predicate GivesBack(db: Db, c: Call, i: nat) {
    i < |db.bookings| && Cancels(db, c, i) && Open(db.bookings[i]) && Refundable(db.bookings[i])
  }

  /** The refund is for a passenger who has boarded. */
  predicate PaysTwice(db: Db, c: Call, i: nat) { GivesBack(db, c, i) && db.bookings[i].ticket == Scanned }

  // ---- What a call makes of a row's payment and ticket ----

  /** b' is b after a call that refunded it or not; a refunded row keeps its ticket. */
  predicate PaymentMoved(b: Booking, b': Booking, refunded: bool) {
    && b'.payment == (if refunded then Refunded else b.payment)
    && (b'.payment == Refunded ==> b'.ticket == b.ticket)
  }

  lemma BoardMoves(db: Db, driver: Option<Id>, code: string, token: Option<string>, i: nat)
    requires i < |db.bookings|
    ensures var db' := Board(db, driver, code, token).0;
            i < |db'.bookings| && PaymentMoved(db.bookings[i], db'.bookings[i], false)
  {
  }

  lemma ClosingMoves(db: Db, driver: Option<Id>, trip: Id, reasonGiven: bool, i: nat)
    requires i < |db.bookings|
    ensures var db' := CompleteTrip(db, driver, trip).0;
            i < |db'.bookings| && PaymentMoved(db.bookings[i], db'.bookings[i], false)
    ensures var db' := SettleTrip(db, driver, trip).0;
            i < |db'.bookings| && PaymentMoved(db.bookings[i], db'.bookings[i], false)
    ensures var db' := WithdrawTrip(db, driver, trip, reasonGiven).0;
            i < |db'.bookings| && PaymentMoved(db.bookings[i], db'.bookings[i], false)
  {
    hide RefundEscrows;
  }

  lemma CancelTripMoves(db: Db, driver: Option<Id>, trip: Id, fails: set<nat>, i: nat)
    requires i < |db.bookings|
    ensures var db' := CancelTrip(db, driver, trip, fails).0;
            i < |db'.bookings| && PaymentMoved(db.bookings[i], db'.bookings[i], GivesBack(db, CancelAll(driver, trip, fails), i))
  {
    hide RefundsMade, FailedCodes;
  }

  lemma CancelBookingMoves(db: Db, passenger: Option<Id>, code: string, now: int, refundOk: bool, i: nat)
    requires i < |db.bookings|
    ensures var db' := CancelBooking(db, passenger, code, now, refundOk).0;
            i < |db'.bookings|
            && PaymentMoved(db.bookings[i], db'.bookings[i], GivesBack(db, CancelOne(passenger, code, now, refundOk), i))
  {
  }

  lemma VerifyAppends(db: Db, reference: string, v: Verdict, token: string, feePercent: real)
    ensures var bookings' := VerifyPayment(db, reference, v, token, feePercent).0.bookings;
            || bookings' == db.bookings
            || (|bookings'| == |db.bookings| + 1 && bookings'[..|db.bookings|] == db.bookings
                && bookings'[|db.bookings|].payment == Paid && bookings'[|db.bookings|].status == Confirmed)
  {
  }

  /** A row's payment turns REFUNDED exactly by the calls that give its fare back. */
  lemma PaymentAfter(db: Db, c: Call, i: nat)
    requires i < |db.bookings|
    ensures i < |Step(db, c).0.bookings|
    ensures PaymentMoved(db.bookings[i], Step(db, c).0.bookings[i], GivesBack(db, c, i))
  {
    hide CreateTrip, Advance, SetBookingStatus, UpdateTrip, ReviseTrip;
    hide CompleteTrip, CancelTrip, WithdrawTrip, SettleTrip;
    hide BookTrip, InitiatePayment, VerifyPayment, Board, CancelBooking;
    match c
    case Book(o, s) => Money.BookFrame(db, o, s);
    case Pay(p, t, r, now, coupons, ok) => Money.PayFrame(db, p, t, r, now, coupons, ok);
    case Verify(r, v, tok, fee) => VerifyAppends(db, r, v, tok, fee);
    case Scan(d, code, tok) => BoardMoves(db, d, code, tok, i);
    case Complete(d, t) => ClosingMoves(db, d, t, true, i);
    case Settle(d, t) => ClosingMoves(db, d, t, true, i);
    case Withdraw(d, t, why) => ClosingMoves(db, d, t, why, i);
    case CancelAll(d, t, fails) => CancelTripMoves(db, d, t, fails, i);
    case CancelOne(p, code, now, ok) => CancelBookingMoves(db, p, code, now, ok, i);
    case _ => Money.OtherRefunds(db, c);
  }

  lemma NewRowNotRefunded(db: Db, c: Call, i: nat)
    requires |db.bookings| <= i < |Step(db, c).0.bookings|
    ensures Step(db, c).0.bookings[i].payment == Paid
  {
    hide CreateTrip, Advance, SetBookingStatus, UpdateTrip, ReviseTrip;
    hide CompleteTrip, CancelTrip, WithdrawTrip, SettleTrip;
    hide BookTrip, InitiatePayment, VerifyPayment, Board, CancelBooking;
    if c.Verify? {
      VerifyAppends(db, c.reference, c.verdict, c.newToken, c.feePercent);
    } else {
      Money.NoNewRow(db, c);
    }
  }

  // ---- Main results ----

  lemma ReleasedIffScanned(start: map<Id, real>, db: Db, i: nat)
    requires MoneyInv(start, db) && i < |db.bookings|
    ensures i < |db.escrows| && (db.escrows[i].status == Released <==> db.bookings[i].ticket == Scanned)
  {
    assert Money.Mirrors(db.trips, db.balances, db.bookings[i], db.escrows[i]);
  }

  /** For every call: a fare goes both ways exactly when the call refunds a passenger who has boarded, and then stays so. */
  lemma StepPaysBothWays(start: map<Id, real>, db: Db, c: Call, i: nat)
    requires MoneyInv(start, db)
    ensures BothWays(Step(db, c).0, i) <==> BothWays(db, i) || PaysTwice(db, c, i)
  {
    hide MoneyInv, Step, Cancels;
    StepKeepsMoney(start, db, c);
    if i < |db.bookings| {
      PaymentAfter(db, c, i);
      ReleasedIffScanned(start, db, i);
      ReleasedIffScanned(start, Step(db, c).0, i);
    } else if i < |Step(db, c).0.bookings| {
      NewRowNotRefunded(db, c, i);
    }
  }

  predicate PaysTwiceAt(start: map<Id, real>, calls: seq<Call>, k: int, i: nat) {
    0 <= k < |calls| && PaysTwice(Run(Fresh(start), calls[..k]), calls[k], i)
  }

  ghost predicate EverPaysTwice(start: map<Id, real>, calls: seq<Call>, i: nat) {
    exists k :: PaysTwiceAt(start, calls, k, i)
  }

  lemma EverPaysTwiceSnoc(start: map<Id, real>, before: seq<Call>, c: Call, i: nat)
    ensures EverPaysTwice(start, before + [c], i)
            <==> EverPaysTwice(start, before, i) || PaysTwice(Run(Fresh(start), before), c, i)
  {
    hide PaysTwice, Run;
    var calls := before + [c];
    assert calls[..|before|] == before;
    forall k | 0 <= k < |before| ensures PaysTwiceAt(start, calls, k, i) <==> PaysTwiceAt(start, before, k, i) {
      assert calls[..k] == before[..k];
    }
    assert PaysTwiceAt(start, calls, |before|, i) <==> PaysTwice(Run(Fresh(start), before), c, i);
    if EverPaysTwice(start, before, i) {
      var k :| PaysTwiceAt(start, before, k, i);
      assert PaysTwiceAt(start, calls, k, i);
    }
  }

  /** Over every run: a fare went both ways exactly when some cancelling call of the run refunded it after boarding. */
  lemma {:induction false} PaidBothWaysIff(start: map<Id, real>, calls: seq<Call>, i: nat)
    ensures BothWays(Run(Fresh(start), calls), i) <==> EverPaysTwice(start, calls, i)
  {
    hide PaysTwice, EverPaysTwice, MoneyInv, Step;
    if calls == [] {
      NeverOnNothing(start, i);
    } else {
      var before, c := calls[..|calls| - 1], calls[|calls| - 1];
      assert calls == before + [c];
      PaidBothWaysIff(start, before, i);
      MoneyFromFresh(start, before);
      StepPaysBothWays(start, Run(Fresh(start), before), c, i);
      EverPaysTwiceSnoc(start, before, c, i);
    }
  }

  lemma NeverOnNothing(start: map<Id, real>, i: nat)
    ensures !EverPaysTwice(start, [], i)
  {
  }

  // ---- Escrows marked refunded ----

  predicate MarkedRefunded(db: Db, i: nat) {
    i < |db.escrows| && db.escrows[i].status == EscrowRefunded
  }

  /** The driver module's cancelTrip passes its guards and meets a paid open booking whose escrow is still held. */
  predicate Marks(db: Db, c: Call, i: nat) {
    && i < |db.bookings| && i < |db.escrows| && c.Withdraw? && CancelsTrip(db, c.driver, c.trip) && c.reasonGiven
    && Withdraws(db.bookings[i], c.trip) && db.bookings[i].payment == Paid && db.escrows[i].status == Held
  }

  lemma WithdrawMarks(start: map<Id, real>, db: Db, driver: Option<Id>, trip: Id, reasonGiven: bool, i: nat)
    requires MoneyInv(start, db)
    ensures MarkedRefunded(WithdrawTrip(db, driver, trip, reasonGiven).0, i)
            <==> MarkedRefunded(db, i) || Marks(db, Withdraw(driver, trip, reasonGiven), i)
  {
    hide Money.RefundTables, Money.Conserved, RefundEscrows, MapRows;
    forall j | 0 <= j < |db.bookings| ensures db.escrows[j].booking == db.bookings[j].code {
      assert Money.Mirrors(db.trips, db.balances, db.bookings[j], db.escrows[j]);
    }
    Money.WithdrawnEscrows(db.bookings, db.escrows, trip, |db.bookings|);
  }

  /** For every call: an escrow is marked refunded exactly by the driver module's cancelTrip, and then stays so. */
  lemma StepMarksRefunded(start: map<Id, real>, db: Db, c: Call, i: nat)
    requires MoneyInv(start, db)
    ensures MarkedRefunded(Step(db, c).0, i) <==> MarkedRefunded(db, i) || Marks(db, c, i)
  {
    hide CreateTrip, Advance, SetBookingStatus, UpdateTrip, ReviseTrip;
    hide CompleteTrip, CancelTrip, SettleTrip, WithdrawTrip;
    hide BookTrip, InitiatePayment, VerifyPayment, Board, CancelBooking;
    hide Money.EscrowTables, Money.RefundInv, Money.Conserved;
    if c.Withdraw? {
      WithdrawMarks(start, db, c.driver, c.trip, c.reasonGiven, i);
    } else if c.Scan? {
      ScanHolds(db, c.driver, c.code, c.token, i);
    } else if c.Verify? {
      VerifyHolds(db, c.reference, c.verdict, c.newToken, c.feePercent, i);
    } else {
      Money.StepFrame(db, c);
    }
  }

  /** Boarding releases only a held escrow: its booking is confirmed, and a marked one's is cancelled. */
  lemma ScanHolds(db: Db, driver: Option<Id>, code: string, token: Option<string>, i: nat)
    requires Money.EscrowInv(db)
    ensures MarkedRefunded(Board(db, driver, code, token).0, i) <==> MarkedRefunded(db, i)
  {
    hide Board;
    Money.BoardEffect(db, driver, code, token);
    var k := IndexOf(db.bookings, Coded(code));
    if k >= 0 { assert Money.Mirrors(db.trips, db.balances, db.bookings[k], db.escrows[k]); }
  }

  lemma VerifyHolds(db: Db, reference: string, v: Verdict, token: string, feePercent: real, i: nat)
    ensures MarkedRefunded(VerifyPayment(db, reference, v, token, feePercent).0, i) <==> MarkedRefunded(db, i)
  {
  }
}
