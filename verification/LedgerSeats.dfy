/** The seat ledger: bookedSeats, kept by separate increments and decrements, is always the seats actually taken. */
module LedgerSeats {
  import opened Common
  import opened Tables
  import opened Sums
  import opened Ledger

  function IntentWeight(i: Intent, trip: Id): int {
    if i.trip == trip && i.status == IntentPending then i.seats else 0
  }

  /** cancelTrip leaves the seats of the bookings it cancels counted; cancelBooking gives them back. */
  function BookingWeight(b: Booking, trip: Id): int {
    if b.trip == trip && (b.status != BookingCancelled || b.cancelledByDriver) then b.seats else 0
  }

  function LiveWeight(b: Booking, trip: Id): int {
    if b.trip == trip && b.status != BookingCancelled then b.seats else 0
  }

  function IntentSeats(trip: Id): Intent -> int { (i: Intent) => IntentWeight(i, trip) }

  function BookingSeats(trip: Id): Booking -> int { (b: Booking) => BookingWeight(b, trip) }

  function LiveSeats(trip: Id): Booking -> int { (b: Booking) => LiveWeight(b, trip) }

  function Taken(intents: seq<Intent>, bookings: seq<Booking>, trip: Id): int {
    SumInt(intents, IntentSeats(trip)) + SumInt(bookings, BookingSeats(trip))
  }

  ghost predicate SeatLedger(trips: map<Id, Trip>, intents: seq<Intent>, bookings: seq<Booking>) {
    forall t <- trips :: trips[t].bookedSeats == Taken(intents, bookings, t)
  }

  ghost predicate IntentsLinked(trips: map<Id, Trip>, intents: seq<Intent>) {
    forall i :: 0 <= i < |intents| ==> intents[i].trip in trips
  }

  /** Only a cancelled trip has bookings its driver cancelled. */
  predicate BookingLinked(trips: map<Id, Trip>, b: Booking) {
    && b.trip in trips
    && (b.cancelledByDriver ==> b.status == BookingCancelled && trips[b.trip].status == Cancelled)
  }

  ghost predicate BookingsLinked(trips: map<Id, Trip>, bookings: seq<Booking>) {
    forall i :: 0 <= i < |bookings| ==> BookingLinked(trips, bookings[i])
  }

  predicate SameHold(a: Intent, b: Intent) {
    a.trip == b.trip && a.passenger == b.passenger && a.status == IntentPending && b.status == IntentPending
  }

  /** At most one pending intent per trip and passenger. */
  ghost predicate OneHold(intents: seq<Intent>) {
    forall i, j :: 0 <= i < j < |intents| ==> !SameHold(intents[i], intents[j])
  }

  ghost predicate SeatCap(trips: map<Id, Trip>) {
    forall t <- trips :: trips[t].bookedSeats <= trips[t].totalSeats
  }

  ghost predicate SeatTables(trips: map<Id, Trip>, intents: seq<Intent>, bookings: seq<Booking>) {
    && SeatLedger(trips, intents, bookings)
    && IntentsLinked(trips, intents)
    && BookingsLinked(trips, bookings)
    && OneHold(intents)
  }

  ghost predicate SeatInv(db: Db) { SeatTables(db.trips, db.intents, db.bookings) }

  predicate SameTripColumns(a: Trip, b: Trip) { a.(bookedSeats := 0) == b.(bookedSeats := 0) }

  /** The same trips, up to bookedSeats. */
  ghost predicate SameTrips(trips: map<Id, Trip>, trips': map<Id, Trip>) {
    trips'.Keys == trips.Keys && forall t <- trips :: SameTripColumns(trips[t], trips'[t])
  }

  // ---- What each kind of table edit does ----

  function AddTo(trips: map<Id, Trip>, trip: Id, seats: int): map<Id, Trip>
    requires trip in trips
  {
    trips[trip := trips[trip].(bookedSeats := trips[trip].bookedSeats + seats)]
  }

  lemma TripsKeepBookings(trips: map<Id, Trip>, trips': map<Id, Trip>, bookings: seq<Booking>)
    requires BookingsLinked(trips, bookings)
    requires trips.Keys <= trips'.Keys
    requires forall t <- trips :: trips[t].status == Cancelled ==> trips'[t].status == Cancelled
    ensures BookingsLinked(trips', bookings)
  {
    forall i | 0 <= i < |bookings| ensures BookingLinked(trips', bookings[i]) {
      assert BookingLinked(trips, bookings[i]);
    }
  }

  lemma RemoveHold(trips: map<Id, Trip>, intents: seq<Intent>, bookings: seq<Booking>, i: nat)
    requires SeatTables(trips, intents, bookings) && i < |intents| && intents[i].status == IntentPending
    ensures SeatTables(AddTo(trips, intents[i].trip, -(intents[i].seats as int)), RemoveAt(intents, i), bookings)
    ensures forall j :: 0 <= j < |intents| - 1 ==> !SameHold(intents[i], RemoveAt(intents, i)[j])
  {
    var trips' := AddTo(trips, intents[i].trip, -(intents[i].seats as int));
    var rest := RemoveAt(intents, i);
    forall t | t in trips' ensures trips'[t].bookedSeats == Taken(rest, bookings, t) {
      SumIntRemove(intents, i, IntentSeats(t));
    }
    TripsKeepBookings(trips, trips', bookings);
    RemoveHoldRows(intents, i);
  }

  lemma RemoveHoldRows(intents: seq<Intent>, i: nat)
    requires OneHold(intents) && i < |intents|
    ensures OneHold(RemoveAt(intents, i))
    ensures forall j :: 0 <= j < |intents| - 1 ==>
              RemoveAt(intents, i)[j] in intents && !SameHold(intents[i], RemoveAt(intents, i)[j])
  {
    var rest := RemoveAt(intents, i);
    forall j | 0 <= j < |rest| ensures rest[j] in intents && !SameHold(intents[i], rest[j]) {
      var k := if j < i then j else j + 1;
      assert rest[j] == intents[k];
      assert !SameHold(intents[if i < k then i else k], intents[if i < k then k else i]);
    }
    forall j, k | 0 <= j < k < |rest| ensures !SameHold(rest[j], rest[k]) {
      assert !SameHold(intents[if j < i then j else j + 1], intents[if k < i then k else k + 1]);
    }
  }

  lemma AddHold(trips: map<Id, Trip>, intents: seq<Intent>, bookings: seq<Booking>, row: Intent)
    requires SeatTables(trips, intents, bookings) && row.trip in trips && row.status == IntentPending
    requires forall j :: 0 <= j < |intents| ==> !SameHold(row, intents[j])
    ensures SeatTables(AddTo(trips, row.trip, row.seats), intents + [row], bookings)
  {
    var trips' := AddTo(trips, row.trip, row.seats);
    forall t | t in trips' ensures trips'[t].bookedSeats == Taken(intents + [row], bookings, t) {
      SumIntAppend(intents, row, IntentSeats(t));
    }
    TripsKeepBookings(trips, trips', bookings);
    forall j, k | 0 <= j < k < |intents| + 1 ensures !SameHold((intents + [row])[j], (intents + [row])[k]) {
      if k == |intents| {
        assert !SameHold(row, intents[j]);
      }
    }
  }

  lemma ConsumeKeepsHolds(intents: seq<Intent>, i: nat)
    requires OneHold(intents) && i < |intents|
    ensures OneHold(intents[i := intents[i].(status := Consumed)])
  {
    var intents' := intents[i := intents[i].(status := Consumed)];
    forall j, k | 0 <= j < k < |intents'| ensures !SameHold(intents'[j], intents'[k]) {
      assert !SameHold(intents[j], intents[k]);
    }
  }

  lemma ConsumeMovesSeats(intents: seq<Intent>, bookings: seq<Booking>, i: nat, row: Booking, t: Id)
    requires i < |intents| && intents[i].status == IntentPending
    requires row.trip == intents[i].trip && row.seats == intents[i].seats && row.status == Confirmed
    ensures Taken(intents[i := intents[i].(status := Consumed)], bookings + [row], t) == Taken(intents, bookings, t)
  {
    SumIntUpdate(intents, i, intents[i].(status := Consumed), IntentSeats(t));
    SumIntAppend(bookings, row, BookingSeats(t));
  }

  /** Confirmation moves the intent's seats to the booking; bookedSeats stays as it is. */
  lemma MoveToBooking(trips: map<Id, Trip>, intents: seq<Intent>, bookings: seq<Booking>, i: nat, row: Booking)
    requires SeatTables(trips, intents, bookings) && i < |intents| && intents[i].status == IntentPending
    requires row.trip == intents[i].trip && row.seats == intents[i].seats
    requires row.status == Confirmed && !row.cancelledByDriver
    ensures SeatTables(trips, intents[i := intents[i].(status := Consumed)], bookings + [row])
  {
    ConsumeKeepsHolds(intents, i);
    forall t | t in trips
      ensures trips[t].bookedSeats == Taken(intents[i := intents[i].(status := Consumed)], bookings + [row], t)
    {
      ConsumeMovesSeats(intents, bookings, i, row, t);
    }
  }

  /** Rewriting bookings without changing what any of them weighs keeps the ledger. */
  lemma RewriteBookings(trips: map<Id, Trip>, trips': map<Id, Trip>, intents: seq<Intent>,
                        bookings: seq<Booking>, bookings': seq<Booking>)
    requires SeatTables(trips, intents, bookings) && |bookings'| == |bookings|
    requires trips'.Keys == trips.Keys && forall t <- trips :: trips'[t].bookedSeats == trips[t].bookedSeats
    requires forall i, t :: 0 <= i < |bookings| ==> BookingWeight(bookings[i], t) == BookingWeight(bookings'[i], t)
    requires BookingsLinked(trips', bookings')
    ensures SeatTables(trips', intents, bookings')
  {
    forall t | t in trips' ensures trips'[t].bookedSeats == Taken(intents, bookings', t) {
      SumIntSame(bookings, bookings', BookingSeats(t));
    }
  }

  lemma CancelOneRow(trips: map<Id, Trip>, intents: seq<Intent>, bookings: seq<Booking>, i: nat, row: Booking)
    requires SeatTables(trips, intents, bookings) && i < |bookings| && bookings[i].status != BookingCancelled
    requires row.trip == bookings[i].trip && row.status == BookingCancelled && row.cancelledByDriver == bookings[i].cancelledByDriver
    ensures bookings[i].trip in trips
    ensures SeatTables(AddTo(trips, bookings[i].trip, -(bookings[i].seats as int)), intents, bookings[i := row])
  {
    assert BookingLinked(trips, bookings[i]);
    var trips' := AddTo(trips, bookings[i].trip, -(bookings[i].seats as int));
    forall t | t in trips' ensures trips'[t].bookedSeats == Taken(intents, bookings[i := row], t) {
      SumIntUpdate(bookings, i, row, BookingSeats(t));
    }
    TripsKeepBookings(trips, trips', bookings);
  }

  ghost predicate HasDriverCancelled(bookings: seq<Booking>, trip: Id) {
    exists i :: 0 <= i < |bookings| && bookings[i].trip == trip && bookings[i].cancelledByDriver
  }

  function BookedBefore(trips: map<Id, Trip>, id: Id): int { if id in trips then trips[id].bookedSeats else 0 }

  /** The trip leaves the cancelled state although its driver's cancellation still counts seats on it. */
  ghost predicate Uncancels(trips: map<Id, Trip>, bookings: seq<Booking>, id: Id, trip: Trip) {
    id in trips && trips[id].status == Cancelled && trip.status != Cancelled && HasDriverCancelled(bookings, id)
  }

  lemma TakenSoFar(trips: map<Id, Trip>, intents: seq<Intent>, bookings: seq<Booking>, id: Id)
    requires SeatTables(trips, intents, bookings)
    ensures Taken(intents, bookings, id) == BookedBefore(trips, id)
  {
    if id !in trips {
      forall i | 0 <= i < |bookings| ensures BookingWeight(bookings[i], id) == 0 {
        assert BookingLinked(trips, bookings[i]);
      }
      SumIntZero(intents, IntentSeats(id));
      SumIntZero(bookings, BookingSeats(id));
    }
  }

  lemma ReplaceKeepsBookings(trips: map<Id, Trip>, bookings: seq<Booking>, id: Id, trip: Trip)
    requires BookingsLinked(trips, bookings)
    ensures BookingsLinked(trips[id := trip], bookings) <==> !Uncancels(trips, bookings, id, trip)
  {
    var trips' := trips[id := trip];
    if Uncancels(trips, bookings, id, trip) {
      var i :| 0 <= i < |bookings| && bookings[i].trip == id && bookings[i].cancelledByDriver;
      assert !BookingLinked(trips', bookings[i]);
    } else {
      forall i | 0 <= i < |bookings| ensures BookingLinked(trips', bookings[i]) {
        assert BookingLinked(trips, bookings[i]);
      }
    }
  }

  /** Rewriting one trip, or adding one, keeps the ledger exactly when it leaves the count as it was and uncancels nothing. */
  lemma ReplaceTrip(trips: map<Id, Trip>, intents: seq<Intent>, bookings: seq<Booking>, id: Id, trip: Trip)
    requires SeatTables(trips, intents, bookings)
    ensures SeatTables(trips[id := trip], intents, bookings)
            <==> trip.bookedSeats == BookedBefore(trips, id) && !Uncancels(trips, bookings, id, trip)
  {
    var trips' := trips[id := trip];
    TakenSoFar(trips, intents, bookings, id);
    ReplaceKeepsBookings(trips, bookings, id, trip);
    assert SeatLedger(trips', intents, bookings) <==> trip.bookedSeats == BookedBefore(trips, id) by {
      assert trips'[id] == trip;
    }
  }

  lemma {:induction false} SumIntZero<T>(rows: seq<T>, f: T -> int)
    requires forall i :: 0 <= i < |rows| ==> f(rows[i]) == 0
    ensures SumInt(rows, f) == 0
  {
    if rows != [] {
      SumIntZero(rows[..|rows| - 1], f);
    }
  }

  // ---- The calls ----

  lemma SubtractKeepsColumns(trips: map<Id, Trip>, trip: Id, seats: int)
    requires trip in trips && seats >= 0
    ensures SameTrips(trips, AddTo(trips, trip, -seats))
    ensures forall t <- trips :: AddTo(trips, trip, -seats)[t].bookedSeats <= trips[t].bookedSeats
  {
  }

  lemma NoneLeft(rest: seq<Intent>, gone: Intent, trip: Id, passenger: Id)
    requires PendingFor(trip, passenger)(gone) && forall j :: 0 <= j < |rest| ==> !SameHold(gone, rest[j])
    ensures forall j :: 0 <= j < |rest| ==> !PendingFor(trip, passenger)(rest[j])
  {
    forall j | 0 <= j < |rest| ensures !PendingFor(trip, passenger)(rest[j]) {
      assert !SameHold(gone, rest[j]);
    }
  }

  lemma ReleaseRow(trips: map<Id, Trip>, intents: seq<Intent>, bookings: seq<Booking>, i: nat, trip: Id, passenger: Id)
    requires SeatTables(trips, intents, bookings) && i < |intents| && PendingFor(trip, passenger)(intents[i])
    ensures trip in trips
    ensures var trips' := AddTo(trips, trip, -(intents[i].seats as int));
            && SeatTables(trips', RemoveAt(intents, i), bookings) && SameTrips(trips, trips')
            && (forall t <- trips :: trips'[t].bookedSeats <= trips[t].bookedSeats)
            && (forall j :: 0 <= j < |intents| - 1 ==> !PendingFor(trip, passenger)(RemoveAt(intents, i)[j]))
  {
    RemoveHold(trips, intents, bookings, i);
    SubtractKeepsColumns(trips, trip, intents[i].seats);
    NoneLeft(RemoveAt(intents, i), intents[i], trip, passenger);
  }

  lemma ReleaseHoldKeeps(db: Db, trip: Id, passenger: Id)
    requires SeatInv(db)
    ensures var freed := ReleaseHold(db, trip, passenger);
            && SeatInv(freed)
            && SameTrips(db.trips, freed.trips)
            && (forall t <- db.trips :: freed.trips[t].bookedSeats <= db.trips[t].bookedSeats)
            && (forall j :: 0 <= j < |freed.intents| ==> !PendingFor(trip, passenger)(freed.intents[j]))
  {
    hide SeatTables, Filter;
    var i := IndexOf(db.intents, PendingFor(trip, passenger));
    if i >= 0 {
      ReleaseRow(db.trips, db.intents, db.bookings, i, trip, passenger);
    }
  }

  lemma HoldSeatsKeeps(db: Db, o: Order, passenger: Id, quote: Pricing.Quote, now: int)
    requires SeatInv(db) && o.trip in db.trips
    requires forall j :: 0 <= j < |db.intents| ==> !PendingFor(o.trip, passenger)(db.intents[j])
    ensures SeatInv(HoldSeats(db, o, passenger, quote, now))
    ensures HoldSeats(db, o, passenger, quote, now).trips == AddTo(db.trips, o.trip, o.seats)
  {
    var row := HoldSeats(db, o, passenger, quote, now).intents[|db.intents|];
    forall j | 0 <= j < |db.intents| ensures !SameHold(row, db.intents[j]) {
      assert !PendingFor(o.trip, passenger)(db.intents[j]);
    }
    AddHold(db.trips, db.intents, db.bookings, row);
  }

  /** The seat check passed on the count from before or from after the release. */
  predicate SeatsLeft(db: Db, freed: Db, o: Order) {
    && o.trip in db.trips && o.trip in freed.trips
    && (|| o.seats <= db.trips[o.trip].totalSeats - db.trips[o.trip].bookedSeats
        || o.seats <= freed.trips[o.trip].totalSeats - freed.trips[o.trip].bookedSeats)
  }

  predicate Holds(db': Db, freed: Db, o: Order, passenger: Id, quote: Pricing.Quote, now: int) {
    db'.(payments := []) == HoldSeats(freed, o, passenger, quote, now).(payments := [])
  }

  /** A bookTrip call ends in one of four states: untouched, hold released, new hold, new hold with its payment. */
  lemma BookOutcomes(db: Db, o: Order, s: Setting)
    ensures var db' := BookTrip(db, o, s).0;
            || db' == db
            || (&& o.trip in db.trips && o.passenger.Some?
                && var freed := ReleaseHold(db, o.trip, o.passenger.value);
                || db' == freed
                || (SeatsLeft(db, freed, o) && exists quote :: Holds(db', freed, o, o.passenger.value, quote, s.now)))
  {
    if o.trip in db.trips && o.passenger.Some? {
      BookSeatsOutcomes(db, ReleaseHold(db, o.trip, o.passenger.value), o, s);
    }
  }

  lemma BookSeatsOutcomes(db: Db, freed: Db, o: Order, s: Setting)
    requires o.passenger.Some? && o.trip in db.trips && o.trip in freed.trips
    ensures var db' := BookSeats(db, freed, o, s).0;
            || db' == db
            || db' == freed
            || (SeatsLeft(db, freed, o) && exists quote :: Holds(db', freed, o, o.passenger.value, quote, s.now))
  {
    var quoted := Pricing.QuoteOrder(db.trips[o.trip].fare, o.seats, o.weights, s.coupons, o.coupon, s.now);
    if quoted.Success? {
      var db' := BookSeats(db, freed, o, s).0;
      assert db' == db || db' == freed || Holds(db', freed, o, o.passenger.value, quoted.value, s.now);
    }
  }

  lemma BookKeeps(db: Db, o: Order, s: Setting)
    requires SeatInv(db)
    ensures SeatInv(BookTrip(db, o, s).0)
    ensures SameTrips(db.trips, BookTrip(db, o, s).0.trips)
    ensures SeatCap(db.trips) ==> SeatCap(BookTrip(db, o, s).0.trips)
  {
    BookOutcomes(db, o, s);
    var db' := BookTrip(db, o, s).0;
    if db' != db {
      ReleaseHoldKeeps(db, o.trip, o.passenger.value);
      var freed := ReleaseHold(db, o.trip, o.passenger.value);
      if db' != freed {
        var quote :| Holds(db', freed, o, o.passenger.value, quote, s.now);
        HeldKeeps(db, freed, db', o, quote, s.now);
      }
    }
  }

  lemma HeldKeeps(db: Db, freed: Db, db': Db, o: Order, quote: Pricing.Quote, now: int)
    requires SeatInv(freed) && SameTrips(db.trips, freed.trips) && SeatsLeft(db, freed, o) && o.passenger.Some?
    requires forall t <- db.trips :: freed.trips[t].bookedSeats <= db.trips[t].bookedSeats
    requires forall j :: 0 <= j < |freed.intents| ==> !PendingFor(o.trip, o.passenger.value)(freed.intents[j])
    requires Holds(db', freed, o, o.passenger.value, quote, now)
    ensures SeatInv(db') && SameTrips(db.trips, db'.trips)
    ensures SeatCap(db.trips) ==> SeatCap(db'.trips)
  {
    HoldSeatsKeeps(freed, o, o.passenger.value, quote, now);
    assert db'.trips == AddTo(freed.trips, o.trip, o.seats);
    CapAfterHold(db.trips, freed.trips, o.trip, o.seats);
  }

  /** A hold that passed the seat check, on the old or the new count, fits the trip. */
  lemma CapAfterHold(trips: map<Id, Trip>, freed: map<Id, Trip>, trip: Id, seats: int)
    requires trip in trips && SameTrips(trips, freed)
    requires forall t <- trips :: freed[t].bookedSeats <= trips[t].bookedSeats
    requires || seats <= trips[trip].totalSeats - trips[trip].bookedSeats
             || seats <= freed[trip].totalSeats - freed[trip].bookedSeats
    ensures SameTrips(trips, AddTo(freed, trip, seats))
    ensures SeatCap(trips) ==> SeatCap(AddTo(freed, trip, seats))
  {
    var trips' := AddTo(freed, trip, seats);
    forall t | t in trips
      ensures SameTripColumns(trips[t], trips'[t])
      ensures trips[t].bookedSeats <= trips[t].totalSeats ==> trips'[t].bookedSeats <= trips'[t].totalSeats
    {
      assert SameTripColumns(trips[t], freed[t]);
    }
  }

  /** A new price changes no intent's trip, passenger, seats or status. */
  lemma PayKeeps(db: Db, c: Call)
    requires SeatInv(db) && c.Pay?
    ensures SeatInv(Step(db, c).0)
  {
    hide CreateTrip, Advance, SetBookingStatus, UpdateTrip, ReviseTrip;
    hide CompleteTrip, CancelTrip, WithdrawTrip, SettleTrip;
    hide BookTrip, VerifyPayment, Board, CancelBooking, SeatTables;
    var i := IndexOf(db.intents, IntentCoded(c.intent));
    if i >= 0 {
      RepriceKeeps(db.trips, db.intents, db.bookings, i, Repriced(db.intents[i], c.coupons, c.now));
    }
  }

  lemma RepriceKeeps(trips: map<Id, Trip>, intents: seq<Intent>, bookings: seq<Booking>, i: nat, row: Intent)
    requires SeatTables(trips, intents, bookings) && i < |intents|
    requires row == intents[i].(discount := row.discount, paid := row.paid)
    ensures SeatTables(trips, intents[i := row], bookings)
  {
    var intents' := intents[i := row];
    forall t | t in trips ensures trips[t].bookedSeats == Taken(intents', bookings, t) {
      SumIntUpdate(intents, i, row, IntentSeats(t));
    }
    forall j, k | 0 <= j < k < |intents'| ensures !SameHold(intents'[j], intents'[k]) {
      assert !SameHold(intents[j], intents[k]);
    }
  }

  lemma VerifyKeeps(db: Db, reference: string, v: Verdict, token: string, feePercent: real)
    requires SeatInv(db)
    ensures SeatInv(VerifyPayment(db, reference, v, token, feePercent).0)
  {
    var db' := VerifyPayment(db, reference, v, token, feePercent).0;
    if db'.bookings != db.bookings {
      var i := IndexOf(db.intents, IntentCoded(db.payments[IndexOf(db.payments, PendingRef(reference))].intent));
      MoveToBooking(db.trips, db.intents, db.bookings, i, NewBooking(db.intents[i], reference, token));
    }
  }

  /** Boarding touches one booking's ticket, nothing the seat ledger counts. */
  lemma BoardRow(db: Db, driver: Option<Id>, code: string, token: Option<string>)
    ensures var db' := Board(db, driver, code, token).0;
            && db'.trips == db.trips && db'.intents == db.intents
            && (|| db'.bookings == db.bookings
                || (var i := IndexOf(db.bookings, Coded(code));
                    i >= 0 && db'.bookings == db.bookings[i := db.bookings[i].(ticket := Scanned)]))
  {
  }

  lemma BoardKeeps(db: Db, driver: Option<Id>, code: string, token: Option<string>)
    requires SeatInv(db)
    ensures SeatInv(Board(db, driver, code, token).0)
  {
    BoardRow(db, driver, code, token);
    var bookings' := Board(db, driver, code, token).0.bookings;
    forall i | 0 <= i < |bookings'| ensures BookingLinked(db.trips, bookings'[i]) {
      assert BookingLinked(db.trips, db.bookings[i]);
    }
    RewriteBookings(db.trips, db.trips, db.intents, db.bookings, bookings');
  }

  lemma CompleteKeeps(db: Db, driver: Option<Id>, trip: Id)
    requires SeatInv(db)
    ensures SeatInv(CompleteTrip(db, driver, trip).0)
  {
    hide SeatLedger, OneHold, IntentsLinked;
    var db' := CompleteTrip(db, driver, trip).0;
    forall i | 0 <= i < |db'.bookings| ensures BookingLinked(db'.trips, db'.bookings[i]) {
      assert BookingLinked(db.trips, db.bookings[i]);
    }
    RewriteBookings(db.trips, db'.trips, db.intents, db.bookings, db'.bookings);
  }

  lemma SettleKeeps(db: Db, driver: Option<Id>, trip: Id)
    requires SeatInv(db)
    ensures SeatInv(SettleTrip(db, driver, trip).0)
  {
    hide SeatLedger, OneHold, IntentsLinked;
    var db' := SettleTrip(db, driver, trip).0;
    forall i | 0 <= i < |db'.bookings| ensures BookingLinked(db'.trips, db'.bookings[i]) {
      assert BookingLinked(db.trips, db.bookings[i]);
    }
    RewriteBookings(db.trips, db'.trips, db.intents, db.bookings, db'.bookings);
  }

  lemma WithdrawKeeps(db: Db, driver: Option<Id>, trip: Id, reasonGiven: bool)
    requires SeatInv(db)
    ensures SeatInv(WithdrawTrip(db, driver, trip, reasonGiven).0)
  {
    if WithdrawTrip(db, driver, trip, reasonGiven).1.Done? {
      var bookings' := MapRows(db.bookings, WithdrawnRow(trip));
      var trips' := db.trips[trip := db.trips[trip].(status := Cancelled)];
      forall i | 0 <= i < |bookings'| ensures BookingLinked(trips', bookings'[i]) {
        assert BookingLinked(db.trips, db.bookings[i]);
      }
      RewriteBookings(db.trips, trips', db.intents, db.bookings, bookings');
    }
  }

  lemma DriverCancelledWeight(b: Booking, trip: Id, fails: bool)
    ensures forall t :: BookingWeight(DriverCancelled(b, trip, fails), t) == BookingWeight(b, t)
  {
  }

  /** A row the driver cancels stays linked once the trip itself is cancelled. */
  lemma DriverCancelledLinked(trips: map<Id, Trip>, trip: Id, b: Booking, fails: bool)
    requires BookingLinked(trips, b) && trip in trips
    ensures BookingLinked(trips[trip := trips[trip].(status := Cancelled)], DriverCancelled(b, trip, fails))
  {
  }

  lemma CancelRowsKeep(trips: map<Id, Trip>, intents: seq<Intent>, bookings: seq<Booking>, trip: Id, fails: set<nat>)
    requires SeatTables(trips, intents, bookings) && trip in trips
    ensures SeatTables(trips[trip := trips[trip].(status := Cancelled)], intents, CancelledRows(bookings, trip, fails))
  {
    var trips', bookings' := trips[trip := trips[trip].(status := Cancelled)], CancelledRows(bookings, trip, fails);
    forall i | 0 <= i < |bookings'| ensures BookingLinked(trips', bookings'[i]) {
      DriverCancelledLinked(trips, trip, bookings[i], i in fails);
    }
    forall i, t | 0 <= i < |bookings'| ensures BookingWeight(bookings[i], t) == BookingWeight(bookings'[i], t) {
      DriverCancelledWeight(bookings[i], trip, i in fails);
    }
    RewriteBookings(trips, trips', intents, bookings, bookings');
  }

  lemma CancelTripKeeps(db: Db, driver: Option<Id>, trip: Id, fails: set<nat>)
    requires SeatInv(db)
    ensures SeatInv(CancelTrip(db, driver, trip, fails).0)
  {
    if CancelTrip(db, driver, trip, fails).1.Done? {
      CancelRowsKeep(db.trips, db.intents, db.bookings, trip, fails);
    }
  }

  lemma CancelBookingKeeps(db: Db, passenger: Option<Id>, code: string, now: int, refundOk: bool)
    requires SeatInv(db)
    ensures SeatInv(CancelBooking(db, passenger, code, now, refundOk).0)
  {
    hide SeatTables;
    var (db', reply) := CancelBooking(db, passenger, code, now, refundOk);
    if reply.Done? {
      var i := IndexOf(db.bookings, CodedFor(code, passenger.value));
      CancelOneRow(db.trips, db.intents, db.bookings, i, db'.bookings[i]);
    }
  }

  /**
   * An accepted createTrip whose body carries a count of booked seats, or an accepted updateTrip whose body carries another
   * count, or takes a trip out of the cancelled state that has bookings its driver cancelled.
   */
  ghost predicate Miscounts(db: Db, c: Call) {
    match c
    case Create(d, verified, t) => Creates(db, d, verified, t) && OrElse(t.bookedSeats, 0) != 0
    case Update(d, id, e) =>
      && Updates(db, d, id, e)
      && (|| OrElse(e.extra.bookedSeats, db.trips[id].bookedSeats) != db.trips[id].bookedSeats
          || (&& db.trips[id].status == Cancelled && OrElse(e.extra.status, Cancelled) != Cancelled
              && HasDriverCancelled(db.bookings, id)))
    case _ => false
  }

  /** The calls that only rewrite one trip's own columns. */
  lemma TripCallKeeps(db: Db, c: Call)
    requires SeatInv(db) && (c.Create? || c.Activate? || c.Start? || c.Toggle? || c.Update? || c.Revise?)
    ensures SeatInv(Step(db, c).0) <==> !Miscounts(db, c)
  {
    hide BookTrip, InitiatePayment, VerifyPayment, Board, CancelBooking;
    hide CompleteTrip, CancelTrip, WithdrawTrip, SettleTrip, SeatTables, HasConfirmed, HasDriverCancelled;
    var db' := Step(db, c).0;
    var id := if c.Create? then c.newTrip.id else c.trip;
    if db' != db {
      ReplaceTrip(db.trips, db.intents, db.bookings, id, db'.trips[id]);
    }
  }

  /**
   * Every call keeps the seat ledger, unless it miscounts. Each case rests on its own lemma, so the calls' definitions are
   * hidden in this proof, as in the others of this form.
   */
  lemma StepKeepsSeats(db: Db, c: Call)
    requires SeatInv(db)
    ensures SeatInv(Step(db, c).0) <==> !Miscounts(db, c)
  {
    hide CreateTrip, Advance, SetBookingStatus, UpdateTrip, ReviseTrip;
    hide CompleteTrip, CancelTrip, WithdrawTrip, SettleTrip;
    hide BookTrip, InitiatePayment, VerifyPayment, Board, CancelBooking;
    hide SeatInv;
    match c
    case Book(o, s) => BookKeeps(db, o, s);
    case Pay(_, _, _, _, _, _) => PayKeeps(db, c);
    case Verify(r, v, tok, fee) => VerifyKeeps(db, r, v, tok, fee);
    case Scan(d, code, tok) => BoardKeeps(db, d, code, tok);
    case Complete(d, t) => CompleteKeeps(db, d, t);
    case CancelAll(d, t, fails) => CancelTripKeeps(db, d, t, fails);
    case CancelOne(p, code, now, ok) => CancelBookingKeeps(db, p, code, now, ok);
    case Withdraw(d, t, reason) => WithdrawKeeps(db, d, t, reason);
    case Settle(d, t) => SettleKeeps(db, d, t);
    case _ => TripCallKeeps(db, c);
  }

  // ---- What holds whatever the request bodies carry ----

  /** bookTrip may change the bookedSeats of the trip it books, and nothing else of any trip. */
  ghost predicate OnlyBooked(trips: map<Id, Trip>, trips': map<Id, Trip>, trip: Id) {
    SameTrips(trips, trips') && (forall t <- trips :: t != trip ==> trips'[t] == trips[t])
  }

  lemma ReleaseColumns(db: Db, trip: Id, passenger: Id)
    ensures OnlyBooked(db.trips, ReleaseHold(db, trip, passenger).trips, trip)
  {
    hide Filter, AddBooked, OnlyBooked;
    Reflexive(db.trips, trip);
    var i := IndexOf(db.intents, PendingFor(trip, passenger));
    if i >= 0 {
      AddColumns(db, trip, -(db.intents[i].seats as int));
    }
  }

  lemma AddColumns(db: Db, trip: Id, seats: int)
    ensures OnlyBooked(db.trips, AddBooked(db, trip, seats).trips, trip)
  {
  }

  lemma HoldColumns(trips: map<Id, Trip>, freed: Db, o: Order, passenger: Id, quote: Pricing.Quote, now: int)
    requires OnlyBooked(trips, freed.trips, o.trip)
    ensures OnlyBooked(trips, HoldSeats(freed, o, passenger, quote, now).trips, o.trip)
  {
    var trips' := HoldSeats(freed, o, passenger, quote, now).trips;
    forall t | t in trips ensures SameTripColumns(trips[t], trips'[t]) {
      assert SameTripColumns(trips[t], freed.trips[t]);
    }
  }

  lemma BookKeepsColumns(db: Db, o: Order, s: Setting)
    ensures OnlyBooked(db.trips, BookTrip(db, o, s).0.trips, o.trip)
  {
    hide BookTrip, ReleaseHold, HoldSeats, SameTripColumns;
    BookOutcomes(db, o, s);
    var db' := BookTrip(db, o, s).0;
    Reflexive(db.trips, o.trip);
    if db' != db {
      var freed := ReleaseHold(db, o.trip, o.passenger.value);
      ReleaseColumns(db, o.trip, o.passenger.value);
      if db' != freed {
        var quote :| Holds(db', freed, o, o.passenger.value, quote, s.now);
        HoldColumns(db.trips, freed, o, o.passenger.value, quote, s.now);
        assert db'.trips == HoldSeats(freed, o, o.passenger.value, quote, s.now).trips;
      }
    }
  }

  lemma Reflexive(trips: map<Id, Trip>, trip: Id)
    ensures OnlyBooked(trips, trips, trip)
  {
  }

  lemma ReleaseLowers(db: Db, trip: Id, passenger: Id)
    ensures var trips' := ReleaseHold(db, trip, passenger).trips;
            forall t <- db.trips :: t in trips' && trips'[t].bookedSeats <= db.trips[t].bookedSeats
  {
    hide Filter;
  }

  /** Booking keeps every trip within its seats. */
  lemma BookCap(db: Db, o: Order, s: Setting)
    requires SeatCap(db.trips)
    ensures SeatCap(BookTrip(db, o, s).0.trips)
  {
    hide BookTrip, ReleaseHold, HoldSeats, SameTripColumns;
    BookOutcomes(db, o, s);
    var db' := BookTrip(db, o, s).0;
    if db' != db {
      var freed := ReleaseHold(db, o.trip, o.passenger.value);
      ReleaseColumns(db, o.trip, o.passenger.value);
      ReleaseLowers(db, o.trip, o.passenger.value);
      CapLower(db.trips, freed.trips);
      if db' != freed {
        var quote :| Holds(db', freed, o, o.passenger.value, quote, s.now);
        assert db'.trips == HoldSeats(freed, o, o.passenger.value, quote, s.now).trips;
        HeldTrips(freed, o, o.passenger.value, quote, s.now);
        CapAfterHold(db.trips, freed.trips, o.trip, o.seats);
      }
    }
  }

  lemma HeldTrips(freed: Db, o: Order, passenger: Id, quote: Pricing.Quote, now: int)
    requires o.trip in freed.trips
    ensures HoldSeats(freed, o, passenger, quote, now).trips == AddTo(freed.trips, o.trip, o.seats)
  {
  }

  lemma CapLower(trips: map<Id, Trip>, trips': map<Id, Trip>)
    requires SeatCap(trips) && SameTrips(trips, trips')
    requires forall t <- trips :: trips'[t].bookedSeats <= trips[t].bookedSeats
    ensures SeatCap(trips')
  {
    forall t | t in trips' ensures trips'[t].bookedSeats <= trips'[t].totalSeats {
      assert SameTripColumns(trips[t], trips'[t]);
    }
  }

  /** Every intent is for a stored trip, and no passenger holds two pending ones on a trip. */
  ghost predicate HoldsOk(db: Db) { IntentsLinked(db.trips, db.intents) && OneHold(db.intents) }

  lemma ReleaseHeld(db: Db, trip: Id, passenger: Id)
    requires HoldsOk(db)
    ensures var freed := ReleaseHold(db, trip, passenger);
            HoldsOk(freed) && forall j :: 0 <= j < |freed.intents| ==> !PendingFor(trip, passenger)(freed.intents[j])
  {
    hide Filter;
    var i := IndexOf(db.intents, PendingFor(trip, passenger));
    if i >= 0 {
      RemoveHoldRows(db.intents, i);
      NoneLeft(RemoveAt(db.intents, i), db.intents[i], trip, passenger);
    }
  }

  lemma AppendHeld(freed: Db, o: Order, passenger: Id, quote: Pricing.Quote, now: int)
    requires HoldsOk(freed) && o.trip in freed.trips
    requires forall j :: 0 <= j < |freed.intents| ==> !PendingFor(o.trip, passenger)(freed.intents[j])
    ensures HoldsOk(HoldSeats(freed, o, passenger, quote, now))
  {
    var intents' := HoldSeats(freed, o, passenger, quote, now).intents;
    forall j, k | 0 <= j < k < |intents'| ensures !SameHold(intents'[j], intents'[k]) {
      if k < |freed.intents| {
        assert !SameHold(freed.intents[j], freed.intents[k]);
      } else {
        assert !PendingFor(o.trip, passenger)(freed.intents[j]);
      }
    }
  }

  lemma BookHeld(db: Db, o: Order, s: Setting)
    requires HoldsOk(db)
    ensures HoldsOk(BookTrip(db, o, s).0)
  {
    hide BookTrip, ReleaseHold, HoldSeats, OneHold;
    BookOutcomes(db, o, s);
    var db' := BookTrip(db, o, s).0;
    if db' != db {
      var freed := ReleaseHold(db, o.trip, o.passenger.value);
      ReleaseHeld(db, o.trip, o.passenger.value);
      if db' != freed {
        var quote :| Holds(db', freed, o, o.passenger.value, quote, s.now);
        AppendHeld(freed, o, o.passenger.value, quote, s.now);
        var held := HoldSeats(freed, o, o.passenger.value, quote, s.now);
        assert db'.intents == held.intents && db'.trips == held.trips;
      }
    }
  }

  lemma PayHeld(db: Db, c: Call)
    requires HoldsOk(db) && c.Pay?
    ensures HoldsOk(Step(db, c).0)
  {
    hide CreateTrip, Advance, SetBookingStatus, UpdateTrip, ReviseTrip;
    hide CompleteTrip, CancelTrip, WithdrawTrip, SettleTrip;
    hide BookTrip, VerifyPayment, Board, CancelBooking;
    var intents' := Step(db, c).0.intents;
    forall j, k | 0 <= j < k < |intents'| ensures !SameHold(intents'[j], intents'[k]) {
      assert !SameHold(db.intents[j], db.intents[k]);
    }
  }

  lemma VerifyHeld(db: Db, reference: string, v: Verdict, token: string, feePercent: real)
    requires HoldsOk(db)
    ensures HoldsOk(VerifyPayment(db, reference, v, token, feePercent).0)
  {
    hide OneHold;
    var db' := VerifyPayment(db, reference, v, token, feePercent).0;
    if db'.intents != db.intents {
      var p := IndexOf(db.payments, PendingRef(reference));
      ConsumeKeepsHolds(db.intents, IndexOf(db.intents, IntentCoded(db.payments[p].intent)));
    }
  }

  lemma OtherHeld(db: Db, c: Call)
    requires !c.Book? && !c.Pay? && !c.Verify?
    ensures Step(db, c).0.intents == db.intents && forall t <- db.trips :: t in Step(db, c).0.trips
  {
    hide BookTrip, InitiatePayment, VerifyPayment;
    hide MapRows, CancelledRows, RefundsMade, FailedCodes, RefundEscrows, HasConfirmed;
  }

  /** Every call, whatever its body carries, keeps one pending intent per trip and passenger. */
  lemma StepKeepsHeld(db: Db, c: Call)
    requires HoldsOk(db)
    ensures HoldsOk(Step(db, c).0)
  {
    hide CreateTrip, Advance, SetBookingStatus, UpdateTrip, ReviseTrip;
    hide CompleteTrip, CancelTrip, WithdrawTrip, SettleTrip;
    hide BookTrip, InitiatePayment, VerifyPayment, Board, CancelBooking, OneHold;
    match c
    case Book(o, s) => BookHeld(db, o, s);
    case Pay(_, _, _, _, _, _) => PayHeld(db, c);
    case Verify(r, v, tok, fee) => VerifyHeld(db, r, v, tok, fee);
    case _ => OtherHeld(db, c);
  }
}
