/** Escrow, driver balances and refunds: what every call keeps about the money. */
module LedgerMoney {
  import opened Common
  import opened Tables
  import opened Sums
  import opened Ledger
  import LedgerSeats
  import Pricing

  // ---- Escrow and driver balances ----

  function PaidOut(e: Escrow, driver: Id): real { if e.driver == driver && e.status == Released then e.net else 0.0 }

  function ReleasedTo(driver: Id): Escrow -> real { (e: Escrow) => PaidOut(e, driver) }

  /**
   * The escrow written with a booking: for the trip's driver as long as the booking is confirmed, released exactly when the
   * ticket was scanned, and otherwise held unless the driver module withdrew the booking.
   */
  predicate Mirrors(trips: map<Id, Trip>, balances: map<Id, real>, b: Booking, e: Escrow) {
    && e.booking == b.code
    && b.trip in trips && e.driver in balances
    && (b.status == Confirmed ==> e.driver == trips[b.trip].driver)
    && (e.status == Released <==> b.ticket == Scanned)
    && (e.status in {Held, Released} || (e.status == EscrowRefunded && b.status == BookingCancelled && b.payment == Paid))
  }

  ghost predicate DistinctCodes(bookings: seq<Booking>) {
    forall i, j :: 0 <= i < j < |bookings| ==> bookings[i].code != bookings[j].code
  }

  /** One escrow per booking, in the order the bookings were confirmed. */
  ghost predicate EscrowTables(trips: map<Id, Trip>, balances: map<Id, real>, bookings: seq<Booking>, escrows: seq<Escrow>) {
    && (forall t <- trips :: trips[t].driver in balances)
    && DistinctCodes(bookings)
    && |escrows| == |bookings|
    && forall i :: 0 <= i < |bookings| ==> Mirrors(trips, balances, bookings[i], escrows[i])
  }

  ghost predicate EscrowInv(db: Db) { EscrowTables(db.trips, db.balances, db.bookings, db.escrows) }

  /** Every driver's balance is the opening balance plus the released escrows. */
  ghost predicate Conserved(start: map<Id, real>, balances: map<Id, real>, escrows: seq<Escrow>) {
    balances.Keys == start.Keys && forall d <- start :: balances[d] == start[d] + SumReal(escrows, ReleasedTo(d))
  }

  /** A stored trip keeps its driver while a booking on it is confirmed, and every trip has a registered one. */
  ghost predicate SameDrivers(trips: map<Id, Trip>, trips': map<Id, Trip>, balances: map<Id, real>, bookings: seq<Booking>) {
    && (forall t <- trips :: t in trips' && (trips'[t].driver == trips[t].driver || !HasConfirmed(bookings, t)))
    && (forall t <- trips' :: trips'[t].driver in balances)
  }

  predicate SameTicket(b: Booking, b': Booking) {
    b'.code == b.code && b'.trip == b.trip && b'.ticket == b.ticket
    && (b.status == BookingCancelled ==> b'.status == BookingCancelled && b'.payment == b.payment)
    && (b'.status == Confirmed ==> b.status == Confirmed)
  }

  lemma RewriteBookings(trips: map<Id, Trip>, trips': map<Id, Trip>, balances: map<Id, real>,
                        bookings: seq<Booking>, bookings': seq<Booking>, escrows: seq<Escrow>)
    requires EscrowTables(trips, balances, bookings, escrows) && SameDrivers(trips, trips', balances, bookings)
    requires |bookings'| == |bookings| && forall i :: 0 <= i < |bookings| ==> SameTicket(bookings[i], bookings'[i])
    ensures EscrowTables(trips', balances, bookings', escrows)
  {
    forall i | 0 <= i < |bookings'| ensures Mirrors(trips', balances, bookings'[i], escrows[i]) {
      assert Mirrors(trips, balances, bookings[i], escrows[i]) && SameTicket(bookings[i], bookings'[i]);
      assert bookings[i].status == Confirmed ==> ConfirmedOn(bookings[i], bookings[i].trip);
    }
    forall i, j | 0 <= i < j < |bookings'| ensures bookings'[i].code != bookings'[j].code {
      assert SameTicket(bookings[i], bookings'[i]) && SameTicket(bookings[j], bookings'[j]);
    }
  }

  lemma OnlyEscrow(trips: map<Id, Trip>, balances: map<Id, real>, bookings: seq<Booking>, escrows: seq<Escrow>, i: nat)
    requires EscrowTables(trips, balances, bookings, escrows) && i < |bookings|
    ensures IndexOf(escrows, EscrowOf(bookings[i].code)) == i
  {
    assert Mirrors(trips, balances, bookings[i], escrows[i]);
    forall j | 0 <= j < |escrows| && EscrowOf(bookings[i].code)(escrows[j]) ensures j == i {
      assert Mirrors(trips, balances, bookings[j], escrows[j]);
    }
    IndexOfOnly(escrows, EscrowOf(bookings[i].code), i);
  }

  /** Boarding the i-th booking: scan the ticket, release its escrow, credit its driver. */
  lemma ReleaseRow(start: map<Id, real>, trips: map<Id, Trip>, balances: map<Id, real>,
                   bookings: seq<Booking>, escrows: seq<Escrow>, i: nat)
    requires EscrowTables(trips, balances, bookings, escrows) && i < |bookings|
    requires bookings[i].ticket != Scanned && bookings[i].status != BookingCancelled
    requires escrows[i].driver in balances
    ensures var e := escrows[i];
            var balances' := balances[e.driver := balances[e.driver] + e.net];
            var escrows' := escrows[i := e.(status := Released)];
            && EscrowTables(trips, balances', bookings[i := bookings[i].(ticket := Scanned)], escrows')
            && (Conserved(start, balances, escrows) ==> Conserved(start, balances', escrows'))
  {
    var e := escrows[i];
    var balances' := balances[e.driver := balances[e.driver] + e.net];
    var bookings' := bookings[i := bookings[i].(ticket := Scanned)];
    var escrows' := escrows[i := e.(status := Released)];
    assert Mirrors(trips, balances, bookings[i], e);
    forall j | 0 <= j < |bookings| ensures Mirrors(trips, balances', bookings'[j], escrows'[j]) {
      assert Mirrors(trips, balances, bookings[j], escrows[j]);
    }
    forall j, k | 0 <= j < k < |bookings'| ensures bookings'[j].code != bookings'[k].code {
      assert bookings[j].code != bookings[k].code;
    }
    forall d | d in start && Conserved(start, balances, escrows)
      ensures balances'[d] == start[d] + SumReal(escrows', ReleasedTo(d))
    {
      SumRealUpdate(escrows, i, e.(status := Released), ReleasedTo(d));
    }
  }

  /** Under the invariants a call to Board either changes no row or boards exactly the coded booking. */
  lemma BoardEffect(db: Db, driver: Option<Id>, code: string, token: Option<string>)
    requires EscrowInv(db)
    ensures var (db', reply) := Board(db, driver, code, token);
            var i := IndexOf(db.bookings, Coded(code));
            || (db' == db && (reply == OK || reply.Threw?))
            || (&& i >= 0 && driver.Some? && db.escrows[i].driver == driver.value && driver.value in db.balances
                && db.bookings[i].ticket != Scanned && db.bookings[i].status == Confirmed && db.bookings[i].payment == Paid
                && reply == Done(db.escrows[i].net, [])
                && db' == db.(bookings := db.bookings[i := db.bookings[i].(ticket := Scanned)],
                              escrows := db.escrows[i := db.escrows[i].(status := Released)],
                              balances := db.balances[driver.value := db.balances[driver.value] + db.escrows[i].net]))
  {
    var i := IndexOf(db.bookings, Coded(code));
    if i >= 0 {
      OnlyEscrow(db.trips, db.balances, db.bookings, db.escrows, i);
      assert Mirrors(db.trips, db.balances, db.bookings[i], db.escrows[i]);
    }
  }

  lemma BoardKeeps(start: map<Id, real>, db: Db, driver: Option<Id>, code: string, token: Option<string>)
    requires EscrowInv(db)
    ensures var db' := Board(db, driver, code, token).0;
            EscrowInv(db') && (Conserved(start, db.balances, db.escrows) ==> Conserved(start, db'.balances, db'.escrows))
  {
    BoardEffect(db, driver, code, token);
    var i := IndexOf(db.bookings, Coded(code));
    if Board(db, driver, code, token).0 != db {
      ReleaseRow(start, db.trips, db.balances, db.bookings, db.escrows, i);
    }
  }

  lemma AppendRow(start: map<Id, real>, trips: map<Id, Trip>, balances: map<Id, real>,
                  bookings: seq<Booking>, escrows: seq<Escrow>, b: Booking, e: Escrow)
    requires EscrowTables(trips, balances, bookings, escrows) && IndexOf(bookings, Coded(b.code)) < 0
    requires b.trip in trips && b.ticket != Scanned && e.status == Held
    requires e.booking == b.code && e.driver == trips[b.trip].driver
    ensures EscrowTables(trips, balances, bookings + [b], escrows + [e])
    ensures Conserved(start, balances, escrows) ==> Conserved(start, balances, escrows + [e])
  {
    forall i | 0 <= i < |bookings| ensures bookings[i].code != b.code {
      assert !Coded(b.code)(bookings[i]);
    }
    forall d | d in start && Conserved(start, balances, escrows)
      ensures balances[d] == start[d] + SumReal(escrows + [e], ReleasedTo(d))
    {
      SumRealAppend(escrows, e, ReleasedTo(d));
    }
  }

  lemma VerifyKeeps(start: map<Id, real>, db: Db, reference: string, v: Verdict, token: string, feePercent: real)
    requires EscrowInv(db)
    ensures var db' := VerifyPayment(db, reference, v, token, feePercent).0;
            EscrowInv(db') && (Conserved(start, db.balances, db.escrows) ==> Conserved(start, db'.balances, db'.escrows))
  {
    var db' := VerifyPayment(db, reference, v, token, feePercent).0;
    if db'.bookings != db.bookings {
      var n := |db.bookings|;
      AppendRow(start, db.trips, db.balances, db.bookings, db.escrows, db'.bookings[n], db'.escrows[n]);
    }
  }

  lemma VerifyBalances(db: Db, reference: string, v: Verdict, token: string, feePercent: real)
    ensures VerifyPayment(db, reference, v, token, feePercent).0.balances == db.balances
  {
  }

  lemma CancelBookingKeeps(db: Db, passenger: Option<Id>, code: string, now: int, refundOk: bool)
    requires EscrowInv(db)
    ensures EscrowInv(CancelBooking(db, passenger, code, now, refundOk).0)
  {
    var (db', reply) := CancelBooking(db, passenger, code, now, refundOk);
    if reply.Done? {
      RewriteBookings(db.trips, db'.trips, db.balances, db.bookings, db'.bookings, db.escrows);
    }
  }

  lemma CompleteKeeps(db: Db, driver: Option<Id>, trip: Id)
    requires EscrowInv(db)
    ensures EscrowInv(CompleteTrip(db, driver, trip).0)
  {
    var db' := CompleteTrip(db, driver, trip).0;
    RewriteBookings(db.trips, db'.trips, db.balances, db.bookings, db'.bookings, db.escrows);
  }

  lemma CancelTripKeeps(db: Db, driver: Option<Id>, trip: Id, fails: set<nat>)
    requires EscrowInv(db)
    ensures EscrowInv(CancelTrip(db, driver, trip, fails).0)
  {
    if CancelTrip(db, driver, trip, fails).1.Done? {
      var bookings' := CancelledRows(db.bookings, trip, fails);
      var trips' := db.trips[trip := db.trips[trip].(status := Cancelled)];
      forall i | 0 <= i < |db.bookings| ensures SameTicket(db.bookings[i], bookings'[i]) {
        assert SameTicket(db.bookings[i], DriverCancelled(db.bookings[i], trip, i in fails));
      }
      RewriteBookings(db.trips, trips', db.balances, db.bookings, bookings', db.escrows);
    }
  }

  lemma SettleKeeps(db: Db, driver: Option<Id>, trip: Id)
    requires EscrowInv(db)
    ensures EscrowInv(SettleTrip(db, driver, trip).0)
  {
    var db' := SettleTrip(db, driver, trip).0;
    RewriteBookings(db.trips, db'.trips, db.balances, db.bookings, db'.bookings, db.escrows);
  }

  /** With one escrow per booking, the withdrawal loop reaches exactly the escrow beside each withdrawn paid booking. */
  function WithdrawnEscrow(b: Booking, e: Escrow, trip: Id): Escrow {
    if Withdraws(b, trip) && b.payment == Paid && e.status == Held then e.(status := EscrowRefunded) else e
  }

  ghost predicate Paired(bookings: seq<Booking>, escrows: seq<Escrow>) {
    && DistinctCodes(bookings) && |escrows| == |bookings|
    && forall i :: 0 <= i < |bookings| ==> escrows[i].booking == bookings[i].code
  }

  lemma RefundPaired(bookings: seq<Booking>, escrows: seq<Escrow>, i: nat)
    requires Paired(bookings, escrows) && i < |bookings|
    ensures var escrows' := RefundEscrow(escrows, bookings[i].code);
            && Paired(bookings, escrows')
            && escrows' == if escrows[i].status == Held then escrows[i := escrows[i].(status := EscrowRefunded)] else escrows
  {
    forall j | 0 <= j < |escrows| && EscrowOf(bookings[i].code)(escrows[j]) ensures j == i {
      assert bookings[if j < i then j else i].code == bookings[if j < i then i else j].code;
    }
    IndexOfOnly(escrows, EscrowOf(bookings[i].code), i);
  }

  ghost predicate WithdrawnUpTo(bookings: seq<Booking>, escrows: seq<Escrow>, escrows': seq<Escrow>, trip: Id, n: nat) {
    && |escrows| == |escrows'| == |bookings|
    && forall i :: 0 <= i < |bookings| ==>
         escrows'[i] == if i < n then WithdrawnEscrow(bookings[i], escrows[i], trip) else escrows[i]
  }

  lemma WithdrawnNone(bookings: seq<Booking>, escrows: seq<Escrow>, trip: Id)
    requires Paired(bookings, escrows)
    ensures WithdrawnUpTo(bookings, escrows, escrows, trip, 0)
  {
  }

  lemma WithdrawnOne(bookings: seq<Booking>, escrows: seq<Escrow>, before: seq<Escrow>, trip: Id, n: nat)
    requires n < |bookings| && |before| == |bookings| && WithdrawnUpTo(bookings, escrows, before, trip, n)
    ensures WithdrawnUpTo(bookings, escrows, before[n := WithdrawnEscrow(bookings[n], before[n], trip)], trip, n + 1)
    ensures before[n := before[n]] == before
  {
  }

  lemma {:induction false} WithdrawnEscrows(bookings: seq<Booking>, escrows: seq<Escrow>, trip: Id, n: nat)
    requires Paired(bookings, escrows) && n <= |bookings|
    ensures Paired(bookings, RefundEscrows(escrows, bookings, trip, n))
    ensures WithdrawnUpTo(bookings, escrows, RefundEscrows(escrows, bookings, trip, n), trip, n)
  {
    hide Paired, WithdrawnUpTo, RefundEscrow;
    if n == 0 {
      WithdrawnNone(bookings, escrows, trip);
    } else {
      var before := RefundEscrows(escrows, bookings, trip, n - 1);
      WithdrawnEscrows(bookings, escrows, trip, n - 1);
      RefundPaired(bookings, before, n - 1);
      WithdrawnOne(bookings, escrows, before, trip, n - 1);
    }
  }

  lemma WithdrawEscrows(start: map<Id, real>, db: Db, trip: Id)
    requires EscrowInv(db)
    ensures var escrows' := RefundEscrows(db.escrows, db.bookings, trip, |db.bookings|);
            && EscrowTables(db.trips, db.balances, MapRows(db.bookings, WithdrawnRow(trip)), escrows')
            && (Conserved(start, db.balances, db.escrows) ==> Conserved(start, db.balances, escrows'))
  {
    var escrows' := RefundEscrows(db.escrows, db.bookings, trip, |db.bookings|);
    var bookings' := MapRows(db.bookings, WithdrawnRow(trip));
    WithdrawnEscrows(db.bookings, db.escrows, trip, |db.bookings|);
    forall i | 0 <= i < |bookings'| ensures Mirrors(db.trips, db.balances, bookings'[i], escrows'[i]) {
      assert Mirrors(db.trips, db.balances, db.bookings[i], db.escrows[i]);
    }
    forall d | d in start && Conserved(start, db.balances, db.escrows)
      ensures db.balances[d] == start[d] + SumReal(escrows', ReleasedTo(d))
    {
      SumRealSame(db.escrows, escrows', ReleasedTo(d));
    }
  }

  lemma WithdrawKeeps(start: map<Id, real>, db: Db, driver: Option<Id>, trip: Id, reasonGiven: bool)
    requires EscrowInv(db)
    ensures var db' := WithdrawTrip(db, driver, trip, reasonGiven).0;
            EscrowInv(db') && (Conserved(start, db.balances, db.escrows) ==> Conserved(start, db'.balances, db'.escrows))
  {
    if WithdrawTrip(db, driver, trip, reasonGiven).1.Done? {
      WithdrawEscrows(start, db, trip);
      var db' := WithdrawTrip(db, driver, trip, reasonGiven).0;
      RewriteBookings(db.trips, db'.trips, db.balances, db'.bookings, db'.bookings, db'.escrows);
    }
  }

  /** bookTrip touches neither bookings, escrows, balances nor refunds, and no trip's driver. */
  lemma BookFrame(db: Db, o: Order, s: Setting)
    ensures var db' := BookTrip(db, o, s).0;
            db'.bookings == db.bookings && db'.escrows == db.escrows && db'.balances == db.balances && db'.refunds == db.refunds
  {
    LedgerSeats.BookOutcomes(db, o, s);
  }

  lemma SameTripsSameDrivers(trips: map<Id, Trip>, trips': map<Id, Trip>, balances: map<Id, real>, bookings: seq<Booking>)
    requires LedgerSeats.SameTrips(trips, trips') && forall t <- trips :: trips[t].driver in balances
    ensures SameDrivers(trips, trips', balances, bookings)
  {
    forall t | t in trips ensures trips'[t].driver == trips[t].driver {
      assert LedgerSeats.SameTripColumns(trips[t], trips'[t]);
    }
  }

  lemma BookKeeps(db: Db, o: Order, s: Setting)
    requires EscrowInv(db)
    ensures EscrowInv(BookTrip(db, o, s).0)
  {
    hide BookTrip;
    LedgerSeats.BookKeepsColumns(db, o, s);
    BookFrame(db, o, s);
    BookKeepsTables(db, BookTrip(db, o, s).0);
  }

  lemma BookKeepsTables(db: Db, db': Db)
    requires EscrowInv(db) && LedgerSeats.SameTrips(db.trips, db'.trips)
    requires db'.bookings == db.bookings && db'.escrows == db.escrows && db'.balances == db.balances
    ensures EscrowInv(db')
  {
    SameTripsSameDrivers(db.trips, db'.trips, db.balances, db.bookings);
    RewriteBookings(db.trips, db'.trips, db.balances, db.bookings, db.bookings, db.escrows);
  }

  /** A new payment row and price touch no trip, booking, escrow, balance or refund. */
  lemma PayFrame(db: Db, passenger: Option<Id>, intent: string, reference: string, now: int,
                 coupons: map<string, Pricing.Coupon>, gatewayOk: bool)
    ensures var db' := InitiatePayment(db, passenger, intent, reference, now, coupons, gatewayOk).0;
            && db'.trips == db.trips && db'.bookings == db.bookings && db'.escrows == db.escrows
            && db'.balances == db.balances && db'.refunds == db.refunds
  {
  }

  lemma TripCallKeeps(db: Db, c: Call)
    requires EscrowInv(db) && (c.Create? || c.Activate? || c.Start? || c.Toggle? || c.Update? || c.Revise?)
    ensures EscrowInv(Step(db, c).0)
  {
    hide BookTrip, InitiatePayment, VerifyPayment, Board, CancelBooking;
    hide CompleteTrip, CancelTrip, WithdrawTrip, SettleTrip;
    var db' := Step(db, c).0;
    if db' != db {
      RewriteBookings(db.trips, db'.trips, db.balances, db.bookings, db.bookings, db.escrows);
    }
  }

  /** Only boarding changes a balance; escrows change by boarding, confirmation and the driver module's withdrawal. */
  lemma StepFrame(db: Db, c: Call)
    requires !c.Scan? && !c.Verify?
    ensures Step(db, c).0.balances == db.balances
    ensures !c.Withdraw? ==> Step(db, c).0.escrows == db.escrows
  {
    if c.Book? {
      BookFrame(db, c.order, c.setting);
    }
  }

  /** Every call keeps the escrow mirror and the balances. */
  lemma StepKeepsEscrow(start: map<Id, real>, db: Db, c: Call)
    requires EscrowInv(db)
    ensures var db' := Step(db, c).0;
            EscrowInv(db') && (Conserved(start, db.balances, db.escrows) ==> Conserved(start, db'.balances, db'.escrows))
  {
    hide CreateTrip, Advance, SetBookingStatus, UpdateTrip, ReviseTrip;
    hide CompleteTrip, CancelTrip, WithdrawTrip, SettleTrip;
    hide BookTrip, InitiatePayment, VerifyPayment, Board, CancelBooking;
    hide EscrowTables, Conserved;
    if !c.Scan? && !c.Verify? {
      StepFrame(db, c);
    }
    match c
    case Book(o, s) => BookKeeps(db, o, s);
    case Pay(p, i, r, now, coupons, ok) => PayFrame(db, p, i, r, now, coupons, ok);
    case Verify(r, v, tok, fee) => VerifyKeeps(start, db, r, v, tok, fee);
    case Scan(d, code, tok) => BoardKeeps(start, db, d, code, tok);
    case Complete(d, t) => CompleteKeeps(db, d, t);
    case CancelAll(d, t, fails) => CancelTripKeeps(db, d, t, fails);
    case CancelOne(p, code, now, ok) => CancelBookingKeeps(db, p, code, now, ok);
    case Withdraw(d, t, reason) => WithdrawKeeps(start, db, d, t, reason);
    case Settle(d, t) => SettleKeeps(db, d, t);
    case _ => TripCallKeeps(db, c);
  }

  // ---- Refunds ----

  function IsRefundOf(reference: string): Refund -> int { (r: Refund) => if r.reference == reference then 1 else 0 }

  function AmountOf(): Refund -> real { (r: Refund) => r.amount }

  function RefundCount(refunds: seq<Refund>, reference: string): int { SumInt(refunds, IsRefundOf(reference)) }

  function RefundTotal(refunds: seq<Refund>): real { SumReal(refunds, AmountOf()) }

  function GivenBack(b: Booking): real { if b.payment == Refunded then b.paid else 0.0 }

  function GivenBackOf(): Booking -> real { (b: Booking) => GivenBack(b) }

  function FlagOf(b: Booking): int { if b.payment == Refunded then 1 else 0 }

  ghost predicate DistinctRefs(bookings: seq<Booking>) {
    && (forall i :: 0 <= i < |bookings| ==> bookings[i].reference.Some?)
    && (forall i, j :: 0 <= i < j < |bookings| ==> bookings[i].reference != bookings[j].reference)
  }

  ghost predicate KnownRef(bookings: seq<Booking>, reference: string) {
    exists i :: 0 <= i < |bookings| && bookings[i].reference == Some(reference)
  }

  ghost predicate AllKnown(bookings: seq<Booking>, refunds: seq<Refund>) {
    forall k :: 0 <= k < |refunds| ==> KnownRef(bookings, refunds[k].reference)
  }

  /** paymentStatus REFUNDED records exactly the refunds the gateway accepted, at most one per booking. */
  ghost predicate RefundTables(bookings: seq<Booking>, refunds: seq<Refund>) {
    && DistinctRefs(bookings)
    && (forall i :: 0 <= i < |bookings| ==> RefundCount(refunds, bookings[i].reference.value) == FlagOf(bookings[i]))
    && AllKnown(bookings, refunds)
    && RefundTotal(refunds) == SumReal(bookings, GivenBackOf())
  }

  ghost predicate RefundInv(db: Db) { RefundTables(db.bookings, db.refunds) }

  predicate SamePayment(b: Booking, b': Booking) {
    b'.code == b.code && b'.reference == b.reference && b'.payment == b.payment && b'.paid == b.paid
  }

  lemma KeepPayments(bookings: seq<Booking>, bookings': seq<Booking>, refunds: seq<Refund>)
    requires RefundTables(bookings, refunds) && |bookings'| == |bookings|
    requires forall i :: 0 <= i < |bookings| ==> SamePayment(bookings[i], bookings'[i])
    ensures RefundTables(bookings', refunds)
  {
    forall i | 0 <= i < |bookings|
      ensures bookings'[i].reference == bookings[i].reference
      ensures GivenBackOf()(bookings[i]) == GivenBackOf()(bookings'[i])
      ensures FlagOf(bookings[i]) == FlagOf(bookings'[i])
    {
      assert SamePayment(bookings[i], bookings'[i]);
    }
    SumRealSame(bookings, bookings', GivenBackOf());
    forall k | 0 <= k < |refunds| ensures KnownRef(bookings', refunds[k].reference) {
      var i :| 0 <= i < |bookings| && bookings[i].reference == Some(refunds[k].reference);
      assert bookings'[i].reference == Some(refunds[k].reference);
    }
  }

  lemma {:induction false} NeverRefunded(bookings: seq<Booking>, refunds: seq<Refund>, reference: string)
    requires AllKnown(bookings, refunds) && !KnownRef(bookings, reference)
    ensures RefundCount(refunds, reference) == 0
  {
    if refunds != [] {
      NeverRefunded(bookings, refunds[..|refunds| - 1], reference);
    }
  }

  lemma AddPaidBooking(bookings: seq<Booking>, refunds: seq<Refund>, b: Booking)
    requires RefundTables(bookings, refunds) && b.reference.Some? && b.payment == Paid
    requires IndexOf(bookings, PaidBy(b.reference.value)) < 0
    ensures RefundTables(bookings + [b], refunds)
  {
    var bookings' := bookings + [b];
    forall i | 0 <= i < |bookings| ensures bookings[i].reference != b.reference {
      assert !PaidBy(b.reference.value)(bookings[i]);
    }
    NeverRefunded(bookings, refunds, b.reference.value);
    SumRealAppend(bookings, b, GivenBackOf());
    forall k | 0 <= k < |refunds| ensures KnownRef(bookings', refunds[k].reference) {
      var i :| 0 <= i < |bookings| && bookings[i].reference == Some(refunds[k].reference);
      assert bookings'[i].reference == Some(refunds[k].reference);
    }
  }

  /** Row b' is row i of the bookings once its refund was accepted. */
  ghost predicate RefundsRow(bookings: seq<Booking>, i: nat, b': Booking) {
    && i < |bookings| && bookings[i].payment == Paid && bookings[i].reference.Some?
    && b'.reference == bookings[i].reference && b'.paid == bookings[i].paid && b'.payment == Refunded
  }

  function RefundFor(b: Booking): Refund
    requires b.reference.Some?
  {
    Refund(b.reference.value, b.paid)
  }

  lemma RefundRowDistinct(bookings: seq<Booking>, i: nat, b': Booking)
    requires DistinctRefs(bookings) && RefundsRow(bookings, i, b')
    ensures DistinctRefs(bookings[i := b'])
  {
    var bookings' := bookings[i := b'];
    forall j | 0 <= j < |bookings'| ensures bookings'[j].reference == bookings[j].reference {
    }
    forall j, k | 0 <= j < k < |bookings'| ensures bookings'[j].reference != bookings'[k].reference {
      assert bookings[j].reference != bookings[k].reference;
    }
  }

  lemma RefundRowCounts(bookings: seq<Booking>, refunds: seq<Refund>, i: nat, b': Booking, j: nat)
    requires DistinctRefs(bookings) && RefundsRow(bookings, i, b') && j < |bookings|
    requires RefundCount(refunds, bookings[j].reference.value) == FlagOf(bookings[j])
    ensures var after := bookings[i := b'][j];
            after.reference.Some? && RefundCount(refunds + [RefundFor(b')], after.reference.value) == FlagOf(after)
  {
    SumIntAppend(refunds, RefundFor(b'), IsRefundOf(bookings[j].reference.value));
    if j != i {
      assert bookings[if j < i then j else i].reference != bookings[if j < i then i else j].reference;
    }
  }

  lemma RefundRowTotal(bookings: seq<Booking>, refunds: seq<Refund>, i: nat, b': Booking)
    requires RefundsRow(bookings, i, b') && RefundTotal(refunds) == SumReal(bookings, GivenBackOf())
    ensures RefundTotal(refunds + [RefundFor(b')]) == SumReal(bookings[i := b'], GivenBackOf())
  {
    SumRealAppend(refunds, RefundFor(b'), AmountOf());
    SumRealUpdate(bookings, i, b', GivenBackOf());
  }

  lemma KnownAfterRefund(bookings: seq<Booking>, i: nat, b': Booking, reference: string)
    requires RefundsRow(bookings, i, b') && KnownRef(bookings, reference)
    ensures KnownRef(bookings[i := b'], reference)
  {
    var j :| 0 <= j < |bookings| && bookings[j].reference == Some(reference);
    assert bookings[i := b'][j].reference == Some(reference);
  }

  lemma RefundRowKnown(bookings: seq<Booking>, refunds: seq<Refund>, i: nat, b': Booking)
    requires AllKnown(bookings, refunds) && RefundsRow(bookings, i, b')
    ensures AllKnown(bookings[i := b'], refunds + [RefundFor(b')])
  {
    var bookings', refunds' := bookings[i := b'], refunds + [RefundFor(b')];
    forall k | 0 <= k < |refunds'| ensures KnownRef(bookings', refunds'[k].reference) {
      if k < |refunds| {
        KnownAfterRefund(bookings, i, b', refunds[k].reference);
      } else {
        assert bookings'[i].reference == Some(refunds'[k].reference);
      }
    }
  }

  /** cancelBooking with an accepted refund: one more refund, one more REFUNDED row. */
  lemma RefundRow(bookings: seq<Booking>, refunds: seq<Refund>, i: nat, b': Booking)
    requires RefundTables(bookings, refunds) && RefundsRow(bookings, i, b')
    ensures RefundTables(bookings[i := b'], refunds + [RefundFor(b')])
  {
    RefundRowDistinct(bookings, i, b');
    RefundRowTotal(bookings, refunds, i, b');
    RefundRowKnown(bookings, refunds, i, b');
    var bookings' := bookings[i := b'];
    forall j | 0 <= j < |bookings'|
      ensures bookings'[j].reference.Some?
      ensures RefundCount(refunds + [RefundFor(b')], bookings'[j].reference.value) == FlagOf(bookings'[j])
    {
      RefundRowCounts(bookings, refunds, i, b', j);
    }
  }

  /** Row i's part in cancelTrip's refunds: one if its call was made and returned. */
  function Accepted(bookings: seq<Booking>, trip: Id, fails: set<nat>, i: nat): int
    requires i < |bookings|
  {
    if Attempted(bookings[i], trip) && i !in fails then 1 else 0
  }

  lemma {:induction false} RefundsMadeCount(bookings: seq<Booking>, trip: Id, fails: set<nat>, n: nat, i: nat)
    requires DistinctRefs(bookings) && n <= |bookings| && i < |bookings|
    ensures RefundCount(RefundsMade(bookings, trip, fails, n), bookings[i].reference.value)
            == if i < n then Accepted(bookings, trip, fails, i) else 0
  {
    if n > 0 {
      RefundsMadeCount(bookings, trip, fails, n - 1, i);
      var before := RefundsMade(bookings, trip, fails, n - 1);
      if Attempted(bookings[n - 1], trip) && (n - 1) !in fails {
        var row := Refund(bookings[n - 1].reference.value, bookings[n - 1].paid);
        SumIntAppend(before, row, IsRefundOf(bookings[i].reference.value));
        assert i != n - 1 ==> bookings[i].reference != bookings[n - 1].reference;
      } else {
        assert RefundsMade(bookings, trip, fails, n) == before;
      }
    }
  }

  lemma GivenBackRow(b: Booking, trip: Id, fails: bool)
    ensures GivenBack(DriverCancelled(b, trip, fails)) - GivenBack(b) == if Attempted(b, trip) && !fails then b.paid else 0.0
  {
  }

  lemma NothingMade(bookings: seq<Booking>, trip: Id, fails: set<nat>)
    ensures RefundsMade(bookings, trip, fails, 0) == [] && RefundTotal([]) == 0.0
  {
  }

  lemma RefundsMadeSnoc(bookings: seq<Booking>, trip: Id, fails: set<nat>, n: nat)
    requires 0 < n <= |bookings|
    ensures RefundTotal(RefundsMade(bookings, trip, fails, n)) == RefundTotal(RefundsMade(bookings, trip, fails, n - 1))
              + if Attempted(bookings[n - 1], trip) && (n - 1) !in fails then bookings[n - 1].paid else 0.0
  {
    var before, b := RefundsMade(bookings, trip, fails, n - 1), bookings[n - 1];
    if Attempted(b, trip) && (n - 1) !in fails {
      SumRealAppend(before, Refund(b.reference.value, b.paid), AmountOf());
    } else {
      assert RefundsMade(bookings, trip, fails, n) == before;
    }
  }

  lemma SumPrefix(bookings: seq<Booking>, n: nat)
    requires 0 < n <= |bookings|
    ensures SumReal(bookings[..n], GivenBackOf()) == SumReal(bookings[..n - 1], GivenBackOf()) + GivenBack(bookings[n - 1])
  {
    assert bookings[..n][..n - 1] == bookings[..n - 1];
  }

  /** What cancelTrip refunds is what turns REFUNDED, naira for naira. */
  lemma {:induction false} RefundsMadeTotal(bookings: seq<Booking>, trip: Id, fails: set<nat>, n: nat)
    requires n <= |bookings|
    ensures RefundTotal(RefundsMade(bookings, trip, fails, n)) + SumReal(bookings[..n], GivenBackOf())
            == SumReal(CancelledRows(bookings, trip, fails)[..n], GivenBackOf())
  {
    if n > 0 {
      RefundsMadeTotal(bookings, trip, fails, n - 1);
      RefundsMadeSnoc(bookings, trip, fails, n);
      SumPrefix(bookings, n);
      SumPrefix(CancelledRows(bookings, trip, fails), n);
      GivenBackRow(bookings[n - 1], trip, (n - 1) in fails);
    }
  }

  lemma {:induction false} RefundsMadeKnown(bookings: seq<Booking>, trip: Id, fails: set<nat>, n: nat)
    requires n <= |bookings|
    ensures AllKnown(bookings, RefundsMade(bookings, trip, fails, n))
  {
    if n > 0 {
      RefundsMadeKnown(bookings, trip, fails, n - 1);
      var before, made := RefundsMade(bookings, trip, fails, n - 1), RefundsMade(bookings, trip, fails, n);
      forall k | 0 <= k < |made| ensures KnownRef(bookings, made[k].reference) {
        if k < |before| {
          assert made[k] == before[k] && KnownRef(bookings, before[k].reference);
        } else {
          assert made[k] == Refund(bookings[n - 1].reference.value, bookings[n - 1].paid);
          assert bookings[n - 1].reference == Some(made[k].reference);
        }
      }
    }
  }

  lemma FlagRow(b: Booking, trip: Id, fails: bool)
    requires b.reference.Some?
    ensures DriverCancelled(b, trip, fails).reference == b.reference
    ensures FlagOf(DriverCancelled(b, trip, fails)) == FlagOf(b) + if Attempted(b, trip) && !fails then 1 else 0
  {
  }

  lemma CancelRowsCounts(bookings: seq<Booking>, refunds: seq<Refund>, trip: Id, fails: set<nat>, i: nat)
    requires DistinctRefs(bookings) && i < |bookings|
    requires RefundCount(refunds, bookings[i].reference.value) == FlagOf(bookings[i])
    ensures var after := CancelledRows(bookings, trip, fails)[i];
            && after.reference == bookings[i].reference && after.reference.Some?
            && RefundCount(refunds + RefundsMade(bookings, trip, fails, |bookings|), after.reference.value) == FlagOf(after)
  {
    RefundsMadeCount(bookings, trip, fails, |bookings|, i);
    SumIntConcat(refunds, RefundsMade(bookings, trip, fails, |bookings|), IsRefundOf(bookings[i].reference.value));
    FlagRow(bookings[i], trip, i in fails);
  }

  lemma KnownAfterCancel(bookings: seq<Booking>, trip: Id, fails: set<nat>, reference: string)
    requires KnownRef(bookings, reference)
    ensures KnownRef(CancelledRows(bookings, trip, fails), reference)
  {
    var i :| 0 <= i < |bookings| && bookings[i].reference == Some(reference);
    assert CancelledRows(bookings, trip, fails)[i].reference == Some(reference);
  }

  lemma CancelRowsKnown(bookings: seq<Booking>, refunds: seq<Refund>, trip: Id, fails: set<nat>)
    requires RefundTables(bookings, refunds)
    ensures AllKnown(CancelledRows(bookings, trip, fails), refunds + RefundsMade(bookings, trip, fails, |bookings|))
  {
    var made := RefundsMade(bookings, trip, fails, |bookings|);
    RefundsMadeKnown(bookings, trip, fails, |bookings|);
    forall k | 0 <= k < |refunds + made|
      ensures KnownRef(CancelledRows(bookings, trip, fails), (refunds + made)[k].reference)
    {
      if k < |refunds| {
        assert (refunds + made)[k] == refunds[k] && KnownRef(bookings, refunds[k].reference);
      } else {
        assert (refunds + made)[k] == made[k - |refunds|] && KnownRef(bookings, made[k - |refunds|].reference);
      }
      KnownAfterCancel(bookings, trip, fails, (refunds + made)[k].reference);
    }
  }

  lemma CancelRowsTotal(bookings: seq<Booking>, refunds: seq<Refund>, trip: Id, fails: set<nat>)
    requires RefundTotal(refunds) == SumReal(bookings, GivenBackOf())
    ensures RefundTotal(refunds + RefundsMade(bookings, trip, fails, |bookings|))
            == SumReal(CancelledRows(bookings, trip, fails), GivenBackOf())
  {
    var n := |bookings|;
    RefundsMadeTotal(bookings, trip, fails, n);
    assert bookings[..n] == bookings && CancelledRows(bookings, trip, fails)[..n] == CancelledRows(bookings, trip, fails);
    SumRealConcat(refunds, RefundsMade(bookings, trip, fails, n), AmountOf());
  }

  lemma CancelRowsRefunds(bookings: seq<Booking>, refunds: seq<Refund>, trip: Id, fails: set<nat>)
    requires RefundTables(bookings, refunds)
    ensures RefundTables(CancelledRows(bookings, trip, fails), refunds + RefundsMade(bookings, trip, fails, |bookings|))
  {
    var after := CancelledRows(bookings, trip, fails);
    CancelRowsTotal(bookings, refunds, trip, fails);
    CancelRowsKnown(bookings, refunds, trip, fails);
    forall i | 0 <= i < |after|
      ensures after[i].reference == bookings[i].reference && after[i].reference.Some?
      ensures RefundCount(refunds + RefundsMade(bookings, trip, fails, |bookings|), after[i].reference.value) == FlagOf(after[i])
    {
      CancelRowsCounts(bookings, refunds, trip, fails, i);
    }
  }

  /** The refunds and every booking's payment are as they were. */
  ghost predicate SamePayments(db: Db, db': Db) {
    db'.refunds == db.refunds && |db'.bookings| == |db.bookings|
    && forall i :: 0 <= i < |db.bookings| ==> SamePayment(db.bookings[i], db'.bookings[i])
  }

  lemma BoardPayments(db: Db, driver: Option<Id>, code: string, token: Option<string>)
    ensures SamePayments(db, Board(db, driver, code, token).0)
  {
    LedgerSeats.BoardRow(db, driver, code, token);
  }

  lemma ClosingPayments(db: Db, driver: Option<Id>, trip: Id, reasonGiven: bool)
    ensures SamePayments(db, CompleteTrip(db, driver, trip).0)
    ensures SamePayments(db, SettleTrip(db, driver, trip).0)
    ensures SamePayments(db, WithdrawTrip(db, driver, trip, reasonGiven).0)
  {
  }

  /** Only a payment confirmation adds a booking. */
  lemma NoNewRow(db: Db, c: Call)
    requires !c.Verify?
    ensures |Step(db, c).0.bookings| == |db.bookings|
  {
    hide CreateTrip, Advance, SetBookingStatus, UpdateTrip, ReviseTrip;
    hide BookTrip, InitiatePayment, SamePayments;
    match c
    case Book(o, s) => BookFrame(db, o, s);
    case Pay(p, i, r, now, coupons, ok) => PayFrame(db, p, i, r, now, coupons, ok);
    case Create(_, _, _) => OtherRefunds(db, c);
    case Activate(_, _) => OtherRefunds(db, c);
    case Start(_, _) => OtherRefunds(db, c);
    case Toggle(_, _, _) => OtherRefunds(db, c);
    case Update(_, _, _) => OtherRefunds(db, c);
    case Revise(_, _, _) => OtherRefunds(db, c);
    case _ =>
  }

  lemma KeepRefunds(db: Db, db': Db)
    requires RefundInv(db) && SamePayments(db, db')
    ensures RefundInv(db')
  {
    KeepPayments(db.bookings, db'.bookings, db.refunds);
  }

  lemma VerifyRefunds(db: Db, reference: string, v: Verdict, token: string, feePercent: real)
    requires RefundInv(db)
    ensures RefundInv(VerifyPayment(db, reference, v, token, feePercent).0)
  {
    var db' := VerifyPayment(db, reference, v, token, feePercent).0;
    if db'.bookings != db.bookings {
      AddPaidBooking(db.bookings, db.refunds, db'.bookings[|db.bookings|]);
    }
  }

  lemma CancelAllRefunds(db: Db, driver: Option<Id>, trip: Id, fails: set<nat>)
    requires RefundInv(db)
    ensures RefundInv(CancelTrip(db, driver, trip, fails).0)
  {
    CancelRowsRefunds(db.bookings, db.refunds, trip, fails);
  }

  lemma CancelOneRefunds(db: Db, passenger: Option<Id>, code: string, now: int, refundOk: bool)
    requires RefundInv(db)
    ensures RefundInv(CancelBooking(db, passenger, code, now, refundOk).0)
  {
    var (db', reply) := CancelBooking(db, passenger, code, now, refundOk);
    if reply.Done? {
      var i := IndexOf(db.bookings, CodedFor(code, passenger.value));
      if Refundable(db.bookings[i]) {
        RefundRow(db.bookings, db.refunds, i, db'.bookings[i]);
      } else {
        KeepPayments(db.bookings, db'.bookings, db.refunds);
      }
    }
  }

  lemma OtherRefunds(db: Db, c: Call)
    requires c.Create? || c.Activate? || c.Start? || c.Toggle? || c.Update? || c.Revise? || c.Pay?
    ensures Step(db, c).0.bookings == db.bookings && Step(db, c).0.refunds == db.refunds
  {
    hide BookTrip, VerifyPayment, Board, CancelBooking;
    hide CompleteTrip, CancelTrip, WithdrawTrip, SettleTrip;
  }

  /** Every call keeps refunds and REFUNDED in step. */
  lemma StepKeepsRefunds(db: Db, c: Call)
    requires RefundInv(db)
    ensures RefundInv(Step(db, c).0)
  {
    hide CreateTrip, Advance, SetBookingStatus, UpdateTrip, ReviseTrip;
    hide CompleteTrip, CancelTrip, WithdrawTrip, SettleTrip;
    hide BookTrip, InitiatePayment, VerifyPayment, Board, CancelBooking;
    hide RefundTables, SamePayments;
    match c
    case Book(o, s) => BookFrame(db, o, s);
    case Verify(r, v, tok, fee) => VerifyRefunds(db, r, v, tok, fee);
    case Scan(d, code, tok) => BoardPayments(db, d, code, tok); KeepRefunds(db, Board(db, d, code, tok).0);
    case Complete(d, t) => ClosingPayments(db, d, t, true); KeepRefunds(db, CompleteTrip(db, d, t).0);
    case Settle(d, t) => ClosingPayments(db, d, t, true); KeepRefunds(db, SettleTrip(db, d, t).0);
    case Withdraw(d, t, why) => ClosingPayments(db, d, t, why); KeepRefunds(db, WithdrawTrip(db, d, t, why).0);
    case CancelAll(d, t, fails) => CancelAllRefunds(db, d, t, fails);
    case CancelOne(p, code, now, ok) => CancelOneRefunds(db, p, code, now, ok);
    case _ => OtherRefunds(db, c);
  }
}
