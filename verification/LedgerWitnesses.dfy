/** Concrete runs showing which ledger promises the code does not keep without further conditions. */
module LedgerWitnesses {
  import opened Common
  import opened Tables
  import opened Pricing
  import opened Ledger
  import LedgerBothWays
  import LedgerGuards

  const DRIVER: Id := 1
  const RIDER: Id := 9
  const TRIP: Id := 7
  const FLAT := Fare(100.0, 0.0, 0.0)
  const START := map[DRIVER := 0.0]
  const LEAVES := 10000

  function Offer(): Call {
    Create(Some(DRIVER), true, NewTrip(TRIP, Some(4), 4, Some(LEAVES), None, None, FLAT, None, None))
  }

  function Reserve(seats: Seats): Call {
    Book(Order(TRIP, Some(RIDER), seats, [], "", "A", "R"), Setting(0, map[], false, false, true))
  }

  function Offered(seats: int, status: TripStatus): Trip { Trip(DRIVER, status, 4, seats, false, Some(LEAVES), None, None, FLAT) }

  function Empty(): Db { Db(map[TRIP := Offered(0, Upcoming)], [], [], [], [], START, []) }

  function Reserved(seats: Seats, status: TripStatus): Db {
    var fare := seats as real * 100.0;
    Db(map[TRIP := Offered(seats, status)], [Intent("A", TRIP, RIDER, seats, fare, 0.0, fare, "", 1800000, IntentPending)],
       [Payment("R", "A", fare, Unpaid, None)], [], [], START, [])
  }

  lemma Run1(db: Db, a: Call)
    ensures Run(db, [a]) == Step(db, a).0
  {
    hide Step;
    assert [a][..0] == [];
    assert Run(db, [a]) == Step(Run(db, [a][..0]), a).0;
  }

  lemma RunSnoc(db: Db, calls: seq<Call>, a: Call)
    ensures Run(db, calls + [a]) == Step(Run(db, calls), a).0
  {
    hide Step;
    assert (calls + [a])[..|calls|] == calls;
  }

  lemma OfferStep()
    ensures CreateTrip(Fresh(START), Some(DRIVER), true, Offer().newTrip).0 == Empty()
  {
  }

  lemma QuoteFlat(seats: Seats)
    ensures QuoteOrder(FLAT, seats, [], map[], "", 0) == Success(Quote(0.0, seats as real * 100.0, 0.0, seats as real * 100.0))
  {
    assert TotalWeight([]) == 0.0;
  }

  lemma StageStep(seats: Seats)
    requires seats <= 4
    ensures Ledger.Stage(Empty(), Empty().trips[TRIP], Reserve(seats).order, Reserve(seats).setting)
            == (Reserved(seats, Upcoming), OK)
  {
    hide QuoteOrder;
    QuoteFlat(seats);
    var staged := Ledger.Stage(Empty(), Empty().trips[TRIP], Reserve(seats).order, Reserve(seats).setting);
    var want := Reserved(seats, Upcoming);
    assert staged.1 == OK;
    assert staged.0.trips == want.trips;
    assert staged.0.intents == want.intents;
    assert staged.0.payments == want.payments;
  }

  lemma ReserveStep(seats: Seats)
    requires seats <= 4
    ensures BookTrip(Empty(), Reserve(seats).order, Reserve(seats).setting).0 == Reserved(seats, Upcoming)
  {
    hide Ledger.Stage, Reserved;
    assert ReleaseHold(Empty(), TRIP, RIDER) == Empty();
    StageStep(seats);
  }

  lemma ReservedRun(seats: Seats)
    requires seats <= 4
    ensures Run(Fresh(START), [Offer(), Reserve(seats)]) == Reserved(seats, Upcoming)
  {
    hide CreateTrip, BookTrip, Reserved, Empty, Run, Fresh;
    Run1(Fresh(START), Offer());
    OfferStep();
    ReserveStep(seats);
    RunSnoc(Fresh(START), [Offer()], Reserve(seats));
    assert [Offer()] + [Reserve(seats)] == [Offer(), Reserve(seats)];
  }

  // ---- More seats booked than the trip has ----

  function Shrink(): Call { Update(Some(DRIVER), TRIP, Edit(Some(1), Some(4), Some(LEAVES), None, NO_EXTRA)) }

  lemma ShrinkStep()
    ensures var db := UpdateTrip(Reserved(4, Upcoming), Some(DRIVER), TRIP, Shrink().edit).0;
            TRIP in db.trips && db.trips[TRIP].bookedSeats == 4 && db.trips[TRIP].totalSeats == 1
  {
  }

  /** Four seats held for payment, then the driver lowers the trip to one seat: no booking is confirmed yet, so updateTrip accepts. */
  lemma OversoldAfterUpdate()
    ensures var db := Run(Fresh(START), [Offer(), Reserve(4)] + [Shrink()]);
            TRIP in db.trips && db.trips[TRIP].bookedSeats == 4 && db.trips[TRIP].totalSeats == 1
  {
    hide UpdateTrip, Reserved, Run;
    ReservedRun(4);
    RunSnoc(Fresh(START), [Offer(), Reserve(4)], Shrink());
    ShrinkStep();
  }

  // ---- Columns the body carries ----

  /** An updateTrip whose body also carries these columns. */
  function Carry(extra: Extra): Call { Update(Some(DRIVER), TRIP, Edit(None, None, Some(LEAVES), None, extra)) }

  function NoSeats(): Call { Carry(NO_EXTRA.(bookedSeats := Some(0))) }

  function BackToUpcoming(): Call { Carry(NO_EXTRA.(status := Some(Upcoming))) }

  lemma NoSeatsStep()
    ensures var db := UpdateTrip(Reserved(4, Upcoming), Some(DRIVER), TRIP, NoSeats().edit).0;
            TRIP in db.trips && db.trips[TRIP].bookedSeats == 0 && db.intents == Reserved(4, Upcoming).intents
  {
  }

  /** Four seats are held for payment, and the trip counts none of them. */
  lemma HeldSeatsForgotten()
    ensures var db := Run(Fresh(START), [Offer(), Reserve(4)] + [NoSeats()]);
            TRIP in db.trips && db.trips[TRIP].bookedSeats == 0 && db.intents == Reserved(4, Upcoming).intents
  {
    hide UpdateTrip, Reserved, Run;
    ReservedRun(4);
    RunSnoc(Fresh(START), [Offer(), Reserve(4)], NoSeats());
    NoSeatsStep();
  }

  function Idle(status: TripStatus): Db { Db(map[TRIP := Offered(0, status)], [], [], [], [], START, []) }

  lemma LifeSteps()
    ensures Advance(Idle(Upcoming), Some(DRIVER), TRIP, Upcoming, Active).0 == Idle(Active)
    ensures CompleteTrip(Idle(Active), Some(DRIVER), TRIP).0 == Idle(Completed)
    ensures UpdateTrip(Idle(Completed), Some(DRIVER), TRIP, BackToUpcoming().edit).0 == Idle(Upcoming)
  {
  }

  /** A trip is activated and completed, and an update then makes it upcoming again. */
  lemma CompletedThenUpcoming()
    ensures Run(Fresh(START), [Offer()] + [Activate(Some(DRIVER), TRIP)] + [Complete(Some(DRIVER), TRIP)] + [BackToUpcoming()])
            == Idle(Upcoming)
    ensures Run(Fresh(START), [Offer()] + [Activate(Some(DRIVER), TRIP)] + [Complete(Some(DRIVER), TRIP)]) == Idle(Completed)
  {
    hide CreateTrip, Advance, CompleteTrip, UpdateTrip, Run, Fresh;
    var a, b := Activate(Some(DRIVER), TRIP), Complete(Some(DRIVER), TRIP);
    Run1(Fresh(START), Offer());
    OfferStep();
    LifeSteps();
    RunSnoc(Fresh(START), [Offer()], a);
    RunSnoc(Fresh(START), [Offer()] + [a], b);
    RunSnoc(Fresh(START), [Offer()] + [a] + [b], BackToUpcoming());
  }

  // ---- Charges and waits ----

  /** The rider books the trip again, under a fresh code and reference. */
  function Again(): Call {
    Book(Order(TRIP, Some(RIDER), 1, [], "", "B", "S"), Setting(0, map[], false, false, true))
  }

  lemma AgainStage()
    ensures var (staged, reply) := Ledger.Stage(Empty(), Reserved(1, Upcoming).trips[TRIP], Again().order, Again().setting);
            && reply == OK && staged.payments == [Payment("S", "B", 100.0, Unpaid, None)]
            && staged.bookings == [] && staged.refunds == []
  {
    hide QuoteOrder;
    QuoteFlat(1);
  }

  lemma AgainReleases()
    ensures ReleaseHold(Reserved(1, Upcoming), TRIP, RIDER) == Empty()
  {
    var db := Reserved(1, Upcoming);
    assert IndexOf(db.intents, PendingFor(TRIP, RIDER)) == 0;
    var freed := ReleaseHold(db, TRIP, RIDER);
    assert freed.trips == Empty().trips;
    assert freed.intents == [];
    assert db.payments == [db.payments[0]] && freed.payments == [];
  }

  lemma AgainStep()
    ensures var db := BookTrip(Reserved(1, Upcoming), Again().order, Again().setting).0;
            db.payments == [Payment("S", "B", 100.0, Unpaid, None)] && db.bookings == [] && db.refunds == []
  {
    hide Ledger.Stage, ReleaseHold;
    AgainReleases();
    AgainStage();
  }

  /** The rider pays the first reference after booking again: the payment row is gone, and the charge leads to nothing. */
  lemma ChargedWithoutBooking()
    ensures var db := Run(Fresh(START), [Offer(), Reserve(1)] + [Again()]);
            && VerifyPayment(db, "R", Answer(true, 100.0), "T", 7.0) == (db, NotVerified)
            && db.bookings == [] && db.refunds == []
  {
    hide BookTrip, Reserved, Run;
    ReservedRun(1);
    AgainStep();
    RunSnoc(Fresh(START), [Offer(), Reserve(1)], Again());
  }

  const EXPIRED := 1800001

  function LatePay(): Call { Pay(Some(RIDER), "A", "S", EXPIRED, map[], true) }

  lemma LatePayStep()
    ensures InitiatePayment(Reserved(1, Upcoming), Some(RIDER), "A", "S", EXPIRED, map[], true)
            == (Reserved(1, Upcoming), Threw(BadRequest))
  {
    assert IndexOf(Reserved(1, Upcoming).intents, IntentCoded("A")) == 0;
  }

  /** Past its thirty minutes the intent admits no new payment, and still the first one confirms the booking. */
  lemma PaidAfterExpiry()
    ensures Step(Run(Fresh(START), [Offer(), Reserve(1)]), LatePay()).1 == Threw(BadRequest)
    ensures Run(Fresh(START), [Offer(), Reserve(1)] + [LatePay()] + [Paid1()]) == Waiting(Upcoming)
  {
    hide InitiatePayment, VerifyPayment, Reserved, Waiting, Run;
    ReservedRun(1);
    LatePayStep();
    PaidStep(Upcoming);
    RunSnoc(Fresh(START), [Offer(), Reserve(1)], LatePay());
    RunSnoc(Fresh(START), [Offer(), Reserve(1)] + [LatePay()], Paid1());
  }

  // ---- Fares paid both ways, or neither ----

  function Board1(): Call { Scan(Some(DRIVER), "A", None) }

  function Paid1(): Call { Verify("R", Answer(true, 100.0), "T", 7.0) }

  function CancelledBy(now: int): Call { CancelOne(Some(RIDER), "A", now, true) }

  function DriverCancels(): Call { CancelAll(Some(DRIVER), TRIP, {}) }

  function DriverWithdraws(): Call { Withdraw(Some(DRIVER), TRIP, true) }

  function Row(payment: PaymentStatus, status: BookingStatus, ticket: TicketStatus, byDriver: bool): Booking {
    Booking("A", TRIP, RIDER, 1, 100.0, 100.0, status, payment, Some("R"), ticket, "T", byDriver, false)
  }

  /** The trip with its one booking, confirmed or beyond. */
  function Booked(trip: Trip, b: Booking, e: EscrowStatus, balance: real, refunds: seq<Refund>): Db {
    Db(map[TRIP := trip], [Intent("A", TRIP, RIDER, 1, 100.0, 0.0, 100.0, "", 1800000, Consumed)],
       [Payment("R", "A", 100.0, Paid, Some("A"))], [b], [Escrow("A", DRIVER, 93.0, e)], map[DRIVER := balance], refunds)
  }

  function Waiting(status: TripStatus): Db { Booked(Offered(1, status), Row(Paid, Confirmed, TicketPending, false), Held, 0.0, []) }

  function Boarded(): Db { Booked(Offered(1, Upcoming), Row(Paid, Confirmed, Scanned, false), Released, 93.0, []) }

  lemma PaidStep(status: TripStatus)
    ensures VerifyPayment(Reserved(1, status), "R", Answer(true, 100.0), "T", 7.0).0 == Waiting(status)
  {
    var db := Reserved(1, status);
    assert IndexOf(db.payments, PendingRef("R")) == 0;
    assert IndexOf(db.bookings, PaidBy("R")) == -1;
    assert IndexOf(db.intents, IntentCoded("A")) == 0;
    assert NetFare(100.0, 7.0) == 93.0;
  }

  lemma PaidRun()
    ensures Run(Fresh(START), [Offer(), Reserve(1)] + [Paid1()]) == Waiting(Upcoming)
  {
    hide VerifyPayment, Reserved, Waiting, Run;
    ReservedRun(1);
    PaidStep(Upcoming);
    RunSnoc(Fresh(START), [Offer(), Reserve(1)], Paid1());
  }

  lemma BoardStep()
    ensures Board(Waiting(Upcoming), Some(DRIVER), "A", None).0 == Boarded()
  {
    var db := Waiting(Upcoming);
    assert IndexOf(db.bookings, Coded("A")) == 0;
    assert IndexOf(db.escrows, EscrowOf("A")) == 0;
  }

  lemma BoardedRun()
    ensures Run(Fresh(START), [Offer(), Reserve(1)] + [Paid1()] + [Board1()]) == Boarded()
  {
    hide Board, Waiting, Boarded, Run;
    PaidRun();
    BoardStep();
    RunSnoc(Fresh(START), [Offer(), Reserve(1)] + [Paid1()], Board1());
  }

  lemma CancelStep()
    ensures CancelBooking(Boarded(), Some(RIDER), "A", 0, true).0
            == Booked(Offered(0, Upcoming), Row(Refunded, BookingCancelled, Scanned, false), Released, 93.0, [Refund("R", 100.0)])
  {
    assert IndexOf(Boarded().bookings, CodedFor("A", RIDER)) == 0;
  }

  /** The rider boards, the driver is credited 93, and the rider's later cancellation still refunds the 100. */
  lemma BoardedAndRefunded()
    ensures Run(Fresh(START), [Offer(), Reserve(1)] + [Paid1()] + [Board1()] + [CancelledBy(0)])
            == Booked(Offered(0, Upcoming), Row(Refunded, BookingCancelled, Scanned, false), Released, 93.0, [Refund("R", 100.0)])
  {
    hide CancelBooking, Boarded, Booked, Run;
    BoardedRun();
    CancelStep();
    RunSnoc(Fresh(START), [Offer(), Reserve(1)] + [Paid1()] + [Board1()], CancelledBy(0));
  }

  lemma CancelTripStep()
    ensures var db := CancelTrip(Boarded(), Some(DRIVER), TRIP, {}).0;
            LedgerBothWays.BothWays(db, 0) && db.balances == map[DRIVER := 93.0] && db.refunds == [Refund("R", 100.0)]
  {
    var bookings := Boarded().bookings;
    assert RefundsMade(bookings, TRIP, {}, 0) == [];
    assert RefundsMade(bookings, TRIP, {}, 1) == [Refund("R", 100.0)];
    assert CancelledRows(bookings, TRIP, {})[0] == DriverCancelled(bookings[0], TRIP, false);
  }

  /** The driver boards the rider, is credited 93, cancels the trip and keeps the money, while the rider gets the 100 back. */
  lemma BoardedThenTripCancelled()
    ensures var db := Run(Fresh(START), [Offer(), Reserve(1)] + [Paid1()] + [Board1()] + [DriverCancels()]);
            LedgerBothWays.BothWays(db, 0) && db.balances == map[DRIVER := 93.0] && db.refunds == [Refund("R", 100.0)]
  {
    hide CancelTrip, Boarded, LedgerBothWays.BothWays, Run;
    BoardedRun();
    CancelTripStep();
    RunSnoc(Fresh(START), [Offer(), Reserve(1)] + [Paid1()] + [Board1()], DriverCancels());
  }

  lemma WithdrawStep()
    ensures var db := WithdrawTrip(Waiting(Upcoming), Some(DRIVER), TRIP, true).0;
            LedgerBothWays.MarkedRefunded(db, 0) && db.refunds == [] && db.balances == START
            && |db.bookings| == 1 && db.bookings[0] == Row(Paid, BookingCancelled, TicketPending, true)
  {
    var db := Waiting(Upcoming);
    assert RefundEscrows(db.escrows, db.bookings, TRIP, 0) == db.escrows;
    assert IndexOf(db.escrows, EscrowOf("A")) == 0;
    assert RefundEscrows(db.escrows, db.bookings, TRIP, 1) == RefundEscrow(db.escrows, "A");
    assert MapRows(db.bookings, WithdrawnRow(TRIP))[0] == WithdrawnRow(TRIP)(db.bookings[0]);
  }

  /** The driver module's cancelTrip marks the escrow refunded, and neither the rider nor the driver gets the money. */
  lemma MarkedRefundedNeverPaid()
    ensures var db := Run(Fresh(START), [Offer(), Reserve(1)] + [Paid1()] + [DriverWithdraws()]);
            LedgerBothWays.MarkedRefunded(db, 0) && db.refunds == [] && db.balances == START
            && |db.bookings| == 1 && db.bookings[0] == Row(Paid, BookingCancelled, TicketPending, true)
  {
    hide WithdrawTrip, Waiting, LedgerBothWays.MarkedRefunded, Row, Run;
    PaidRun();
    WithdrawStep();
    RunSnoc(Fresh(START), [Offer(), Reserve(1)] + [Paid1()], DriverWithdraws());
  }

  // ---- Guards that are not there ----

  lemma CancelReservedStep()
    ensures CancelTrip(Reserved(1, Upcoming), Some(DRIVER), TRIP, {}).0 == Reserved(1, Cancelled)
  {
  }

  lemma WaitingIsStranded()
    ensures LedgerGuards.Stranded(Waiting(Cancelled), 0)
  {
  }

  /** A seat is reserved, the driver cancels the trip, and the rider's payment still confirms a booking on it. */
  lemma PaidForCancelledTrip()
    ensures LedgerGuards.Stranded(Run(Fresh(START), [Offer(), Reserve(1)] + [DriverCancels()] + [Paid1()]), 0)
  {
    hide CancelTrip, VerifyPayment, Reserved, Waiting, LedgerGuards.Stranded, Run;
    ReservedRun(1);
    CancelReservedStep();
    PaidStep(Cancelled);
    WaitingIsStranded();
    RunSnoc(Fresh(START), [Offer(), Reserve(1)], DriverCancels());
    RunSnoc(Fresh(START), [Offer(), Reserve(1)] + [DriverCancels()], Paid1());
  }

  lemma LateStep()
    ensures CancelBooking(Waiting(Upcoming), Some(RIDER), "A", LEAVES + 1, true).0
            == Booked(Offered(0, Upcoming), Row(Refunded, BookingCancelled, TicketPending, false), Held, 0.0, [Refund("R", 100.0)])
  {
    assert IndexOf(Waiting(Upcoming).bookings, CodedFor("A", RIDER)) == 0;
  }

  /** A rider who did not show up cancels after the departure and is refunded in full. */
  lemma CancelledAfterDeparture()
    ensures Run(Fresh(START), [Offer(), Reserve(1)] + [Paid1()] + [CancelledBy(LEAVES + 1)])
            == Booked(Offered(0, Upcoming), Row(Refunded, BookingCancelled, TicketPending, false), Held, 0.0, [Refund("R", 100.0)])
  {
    hide CancelBooking, Waiting, Booked, Run;
    PaidRun();
    LateStep();
    RunSnoc(Fresh(START), [Offer(), Reserve(1)] + [Paid1()], CancelledBy(LEAVES + 1));
  }

  // ---- Single calls ----

  /** A ticket with another token is refused, and the right one boards. */
  lemma TokenMatters()
    ensures Board(Waiting(Upcoming), Some(DRIVER), "A", Some("other")) == (Waiting(Upcoming), Threw(BadRequest))
    ensures Board(Waiting(Upcoming), Some(DRIVER), "A", Some("")) == (Waiting(Upcoming), Threw(BadRequest))
    ensures Board(Waiting(Upcoming), Some(DRIVER), "A", Some("T")) == (Boarded(), Done(93.0, []))
  {
    var db := Waiting(Upcoming);
    assert IndexOf(db.bookings, Coded("A")) == 0;
    assert IndexOf(db.escrows, EscrowOf("A")) == 0;
    var boarded := Board(db, Some(DRIVER), "A", Some("T")).0;
    assert boarded.bookings == Boarded().bookings && boarded.escrows == Boarded().escrows;
    assert boarded.balances == Boarded().balances;
  }

  /** Another passenger cannot cancel the booking. */
  lemma OnlyOwnBookings()
    ensures CancelBooking(Waiting(Upcoming), Some(5), "A", 0, true) == (Waiting(Upcoming), Threw(NotFound))
  {
    assert IndexOf(Waiting(Upcoming).bookings, CodedFor("A", 5)) == -1;
  }

  /** A fare of 5000 booked for 4500 with a coupon. */
  function Discounted(): Db {
    Reserved(1, Upcoming).(
      intents := [Intent("A", TRIP, RIDER, 1, 5000.0, 500.0, 4500.0, "SAVE", 1800000, IntentPending)],
      payments := [Payment("R", "A", 4500.0, Unpaid, None)])
  }

  /** The passenger's 4500 confirms it, and 7 percent of the full 5000 leave the driver 4650. */
  lemma DriverPaidInFull()
    ensures var db := VerifyPayment(Discounted(), "R", Answer(true, 4500.0), "T", 7.0).0;
            && db.escrows == [Escrow("A", DRIVER, 4650.0, Held)]
            && |db.bookings| == 1 && db.bookings[0].paid == 4500.0 && db.bookings[0].total == 5000.0
  {
    var db := Discounted();
    assert IndexOf(db.payments, PendingRef("R")) == 0;
    assert IndexOf(db.bookings, PaidBy("R")) == -1;
    assert IndexOf(db.intents, IntentCoded("A")) == 0;
    assert NetFare(5000.0, 7.0) == 4650.0;
  }
}
