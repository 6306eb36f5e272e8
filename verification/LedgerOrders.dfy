/**
 * From order to booking: which orders bookTrip accepts and which rows it drops and writes, which payments may be started,
 * and the booking and escrow a verified payment leaves behind. Stated on the stored rows alone.
 */
module LedgerOrders {
  import opened Common
  import opened Tables
  import opened Ledger
  import opened Pricing

  // ---- The hold a new order replaces ----

  predicate IsHold(i: Intent, trip: Id, passenger: Id) { i.trip == trip && i.passenger == passenger && i.status == IntentPending }

  predicate FirstHold(intents: seq<Intent>, k: int, trip: Id, passenger: Id) {
    0 <= k < |intents| && IsHold(intents[k], trip, passenger) && forall j :: 0 <= j < k ==> !IsHold(intents[j], trip, passenger)
  }

  ghost predicate HasHold(intents: seq<Intent>, trip: Id, passenger: Id) {
    exists k :: FirstHold(intents, k, trip, passenger)
  }

  /** The payment belongs to the hold being replaced. */
  ghost predicate OfHold(intents: seq<Intent>, trip: Id, passenger: Id, p: Payment) {
    exists k :: FirstHold(intents, k, trip, passenger) && intents[k].code == p.intent
  }

  /** The intents without the replaced hold, order kept. */
  predicate WithoutHold(intents: seq<Intent>, rest: seq<Intent>, trip: Id, passenger: Id) {
    if exists k :: 0 <= k < |intents| && IsHold(intents[k], trip, passenger) then
      && |rest| == |intents| - 1
      && exists k :: 0 <= k < |intents| && FirstHold(intents, k, trip, passenger) && rest == intents[..k] + intents[k + 1..]
    else rest == intents
  }

  /** The hold's seats are given back on its trip, and no other trip changes. */
  ghost predicate TripsReleased(trips: map<Id, Trip>, trips': map<Id, Trip>, intents: seq<Intent>, trip: Id, passenger: Id) {
    && trips'.Keys == trips.Keys
    && (forall t <- trips :: t != trip ==> trips'[t] == trips[t])
    && (trip in trips && !HasHold(intents, trip, passenger) ==> trips'[trip] == trips[trip])
    && (forall k :: trip in trips && FirstHold(intents, k, trip, passenger) ==>
          trips'[trip] == trips[trip].(bookedSeats := trips[trip].bookedSeats - intents[k].seats))
  }

  /** `mid` is db without the passenger's hold on the trip: its seats given back, its payments dropped, all others kept. */
  ghost predicate Released(db: Db, mid: Db, trip: Id, passenger: Id) {
    && WithoutHold(db.intents, mid.intents, trip, passenger)
    && (forall p: Payment ::
          multiset(mid.payments)[p] == if OfHold(db.intents, trip, passenger, p) then 0 else multiset(db.payments)[p])
    && TripsReleased(db.trips, mid.trips, db.intents, trip, passenger)
    && mid == db.(trips := mid.trips, intents := mid.intents, payments := mid.payments)
  }

  lemma HoldIndex(intents: seq<Intent>, trip: Id, passenger: Id)
    ensures var i := IndexOf(intents, PendingFor(trip, passenger));
            && (i >= 0 ==> FirstHold(intents, i, trip, passenger))
            && (forall k :: FirstHold(intents, k, trip, passenger) ==> k == i)
            && (i < 0 <==> forall j :: 0 <= j < |intents| ==> !IsHold(intents[j], trip, passenger))
  {
    var i := IndexOf(intents, PendingFor(trip, passenger));
    forall j | 0 <= j < (if i < 0 then |intents| else i) ensures !IsHold(intents[j], trip, passenger) {
      assert !PendingFor(trip, passenger)(intents[j]);
    }
    forall k | FirstHold(intents, k, trip, passenger) ensures k == i {
      assert PendingFor(trip, passenger)(intents[k]);
    }
  }

  lemma ReleasedPayments(intents: seq<Intent>, payments: seq<Payment>, i: nat, trip: Id, passenger: Id, p: Payment)
    requires i < |intents| && FirstHold(intents, i, trip, passenger) && forall k :: FirstHold(intents, k, trip, passenger) ==> k == i
    ensures multiset(Filter(payments, NotOf(intents[i].code)))[p]
            == if OfHold(intents, trip, passenger, p) then 0 else multiset(payments)[p]
  {
    FilterCount(payments, NotOf(intents[i].code), p);
    assert OfHold(intents, trip, passenger, p) <==> intents[i].code == p.intent;
  }

  lemma ReleasedIntents(intents: seq<Intent>, i: nat, trip: Id, passenger: Id)
    requires i < |intents| && FirstHold(intents, i, trip, passenger)
    ensures WithoutHold(intents, RemoveAt(intents, i), trip, passenger)
  {
    IsOneHold(intents, i, trip, passenger);
  }

  lemma ReleasedTrips(trips: map<Id, Trip>, freed: map<Id, Trip>, intents: seq<Intent>, i: nat, trip: Id, passenger: Id)
    requires i < |intents| && FirstHold(intents, i, trip, passenger) && forall k :: FirstHold(intents, k, trip, passenger) ==> k == i
    requires freed == if trip !in trips then trips
                      else trips[trip := trips[trip].(bookedSeats := trips[trip].bookedSeats - intents[i].seats)]
    ensures TripsReleased(trips, freed, intents, trip, passenger)
  {
    hide FirstHold;
    assert HasHold(intents, trip, passenger);
  }

  lemma ReleasesHold(db: Db, trip: Id, passenger: Id)
    ensures Released(db, ReleaseHold(db, trip, passenger), trip, passenger)
  {
    hide FirstHold, Filter, WithoutHold, TripsReleased, OfHold;
    HoldIndex(db.intents, trip, passenger);
    var i := IndexOf(db.intents, PendingFor(trip, passenger));
    var freed := ReleaseHold(db, trip, passenger);
    if i >= 0 {
      ReleasedIntents(db.intents, i, trip, passenger);
      ReleasedTrips(db.trips, freed.trips, db.intents, i, trip, passenger);
      forall p: Payment
        ensures multiset(freed.payments)[p] == if OfHold(db.intents, trip, passenger, p) then 0 else multiset(db.payments)[p]
      {
        ReleasedPayments(db.intents, db.payments, i, trip, passenger, p);
      }
    } else {
      NothingReleased(db, trip, passenger);
    }
  }

  lemma NothingReleased(db: Db, trip: Id, passenger: Id)
    requires forall j :: 0 <= j < |db.intents| ==> !IsHold(db.intents[j], trip, passenger)
    ensures Released(db, db, trip, passenger)
  {
  }

  lemma IsOneHold(intents: seq<Intent>, i: nat, trip: Id, passenger: Id)
    requires i < |intents| && FirstHold(intents, i, trip, passenger)
    ensures IsHold(intents[i], trip, passenger)
  {
  }

  // ---- bookTrip ----

  /** The trip can still be booked at this time. */
  predicate OpenAt(t: Trip, now: int) {
    !t.bookingsClosed && (t.departure.Some? ==> now < t.departure.value) && (t.closing.Some? ==> now < t.closing.value)
  }

  /** The hold an accepted order writes: half an hour, the quoted price, and the passenger's own. */
  predicate HoldFor(i: Intent, o: Order, q: Quote, now: int) {
    && i.code == o.code && i.trip == o.trip && Some(i.passenger) == o.passenger && i.seats == o.seats
    && i.total == q.total && i.discount == q.discount && i.paid == q.paid && i.coupon == o.coupon
    && i.expires == now + 1800000 && i.status == IntentPending
  }

  /** db' is `mid` with one more hold and its seats. */
  ghost predicate HoldAdded(mid: Db, db': Db, o: Order, q: Quote, now: int) {
    && |db'.intents| == |mid.intents| + 1 && db'.intents[..|mid.intents|] == mid.intents
    && HoldFor(db'.intents[|mid.intents|], o, q, now)
    && o.trip in mid.trips
    && db'.trips == mid.trips[o.trip := mid.trips[o.trip].(bookedSeats := mid.trips[o.trip].bookedSeats + o.seats)]
    && db' == mid.(trips := db'.trips, intents := db'.intents, payments := db'.payments)
  }

  /** The order passes the checks made after the release; the seats are counted on the row the re-read sees. */
  ghost predicate Fits(db: Db, mid: Db, o: Order, s: Setting, q: Quote) {
    && o.trip in db.trips && o.trip in mid.trips
    && (var seen := if s.stale then db.trips[o.trip] else mid.trips[o.trip]; o.seats <= seen.totalSeats - seen.bookedSeats)
    && QuoteOrder(db.trips[o.trip].fare, o.seats, o.weights, s.coupons, o.coupon, s.now) == Success(q)
    && (forall j :: 0 <= j < |mid.intents| ==> mid.intents[j].code != o.code)
  }

  ghost predicate FreshReference(mid: Db, o: Order) {
    forall j :: 0 <= j < |mid.payments| ==> mid.payments[j].txRef != o.reference
  }

  /** From the state after the release: refused, held without a payment row, or held with its one payment row. */
  ghost predicate Staged(db: Db, mid: Db, db': Db, reply: Reply, o: Order, s: Setting) {
    || (reply.Threw? && db' == mid && forall q :: !Fits(db, mid, o, s, q))
    || (reply == Threw(DatabaseError) && !FreshReference(mid, o) && db'.payments == mid.payments
        && exists q :: Fits(db, mid, o, s, q) && HoldAdded(mid, db', o, q, s.now))
    || (reply == (if s.gatewayOk then OK else Threw(GatewayDown)) && FreshReference(mid, o)
        && exists q :: Fits(db, mid, o, s, q) && HoldAdded(mid, db', o, q, s.now)
                       && db'.payments == mid.payments + [Payment(o.reference, o.code, q.paid, Unpaid, None)])
  }

  lemma HoldIsAdded(mid: Db, o: Order, q: Quote, now: int, payments: seq<Payment>)
    requires o.passenger.Some? && o.trip in mid.trips
    ensures HoldAdded(mid, HoldSeats(mid, o, o.passenger.value, q, now).(payments := payments), o, q, now)
  {
  }

  lemma StageOutcome(db: Db, freed: Db, o: Order, s: Setting)
    requires o.passenger.Some? && o.trip in db.trips && o.trip in freed.trips
    ensures var (db', reply) := Ledger.Stage(freed, db.trips[o.trip], o, s); Staged(db, freed, db', reply, o, s)
  {
    hide QuoteOrder, HoldAdded;
    var (db', reply) := Ledger.Stage(freed, db.trips[o.trip], o, s);
    CodesFree(freed.intents, o.code);
    ReferencesFree(freed.payments, o.reference);
    var quoted := QuoteOrder(db.trips[o.trip].fare, o.seats, o.weights, s.coupons, o.coupon, s.now);
    if quoted.Success? && db' != freed {
      HoldIsAdded(freed, o, quoted.value, s.now, db'.payments);
      assert Fits(db, freed, o, s, quoted.value) && HoldAdded(freed, db', o, quoted.value, s.now);
    }
  }

  lemma CodesFree(intents: seq<Intent>, code: string)
    ensures IndexOf(intents, IntentCoded(code)) < 0 <==> forall j :: 0 <= j < |intents| ==> intents[j].code != code
  {
    forall j | 0 <= j < |intents| && IndexOf(intents, IntentCoded(code)) < 0 ensures intents[j].code != code {
      assert !IntentCoded(code)(intents[j]);
    }
  }

  lemma ReferencesFree(payments: seq<Payment>, reference: string)
    ensures IndexOf(payments, HasRef(reference)) < 0 <==> forall j :: 0 <= j < |payments| ==> payments[j].txRef != reference
  {
    forall j | 0 <= j < |payments| && IndexOf(payments, HasRef(reference)) < 0 ensures payments[j].txRef != reference {
      assert !HasRef(reference)(payments[j]);
    }
  }

  /**
   * A bookTrip call on a trip that cannot be booked, or by no passenger, changes nothing. Any other call first releases the
   * passenger's own hold, and nothing else, and then refuses or writes one hold and at most one payment; a throw inside a
   * transaction undoes it all.
   */
  ghost predicate Ordered(db: Db, db': Db, reply: Reply, o: Order, s: Setting) {
    if o.trip !in db.trips || !OpenAt(db.trips[o.trip], s.now) || o.passenger.None? then db' == db && reply.Threw?
    else exists mid, written :: OrderedBy(db, mid, written, db', reply, o, s)
  }

  ghost predicate OrderedBy(db: Db, mid: Db, written: Db, db': Db, reply: Reply, o: Order, s: Setting) {
    && o.passenger.Some? && Released(db, mid, o.trip, o.passenger.value) && Staged(db, mid, written, reply, o, s)
    && db' == (if reply.Threw? && s.transactional then db else written)
  }

  lemma BookTripWrites(db: Db, o: Order, s: Setting)
    ensures Ordered(db, BookTrip(db, o, s).0, BookTrip(db, o, s).1, o, s)
  {
    hide ReleaseHold, Ledger.Stage, Released, Staged;
    if o.trip in db.trips && OpenAt(db.trips[o.trip], s.now) && o.passenger.Some? {
      var freed := ReleaseHold(db, o.trip, o.passenger.value);
      ReleasesHold(db, o.trip, o.passenger.value);
      ReleasedTrip(db, freed, o.trip, o.passenger.value);
      StageOutcome(db, freed, o, s);
      var (db', reply) := BookTrip(db, o, s);
      assert OrderedBy(db, freed, Ledger.Stage(freed, db.trips[o.trip], o, s).0, db', reply, o, s);
    }
  }

  lemma ReleasedTrip(db: Db, mid: Db, trip: Id, passenger: Id)
    requires Released(db, mid, trip, passenger)
    ensures trip in db.trips ==> trip in mid.trips
  {
  }

  /**
   * No call of one passenger touches another's payments: every payment whose intent is not a pending one of that passenger on
   * that trip is in the table as often as before, but for the one row the call adds under its own code and reference.
   */
  lemma OtherPaymentsStay(db: Db, o: Order, s: Setting, p: Payment)
    requires forall k :: 0 <= k < |db.intents| && o.passenger.Some? && IsHold(db.intents[k], o.trip, o.passenger.value)
               ==> db.intents[k].code != p.intent
    ensures var payments' := BookTrip(db, o, s).0.payments;
            && multiset(payments')[p] >= multiset(db.payments)[p]
            && (p.intent != o.code || p.txRef != o.reference ==> multiset(payments')[p] == multiset(db.payments)[p])
  {
    hide BookTrip, Fits, HoldAdded, WithoutHold;
    BookTripWrites(db, o, s);
    var (db', reply) := BookTrip(db, o, s);
    if o.trip in db.trips && OpenAt(db.trips[o.trip], s.now) && o.passenger.Some? {
      var mid, written :| OrderedBy(db, mid, written, db', reply, o, s);
      assert !OfHold(db.intents, o.trip, o.passenger.value, p);
      assert multiset(mid.payments)[p] == multiset(db.payments)[p];
    }
  }

  /** And the passenger's own replaced payments go: none is left unless the call undid itself or reused the code. */
  lemma ReplacedPaymentsGo(db: Db, o: Order, s: Setting, k: nat, p: Payment)
    requires o.passenger.Some? && k < |db.intents| && FirstHold(db.intents, k, o.trip, o.passenger.value)
    requires db.intents[k].code == p.intent != o.code && BookTrip(db, o, s).1 == OK
    ensures p !in BookTrip(db, o, s).0.payments
  {
    hide BookTrip, Fits, HoldAdded, WithoutHold;
    BookTripWrites(db, o, s);
    var (db', reply) := BookTrip(db, o, s);
    var mid, written :| OrderedBy(db, mid, written, db', reply, o, s);
    assert OfHold(db.intents, o.trip, o.passenger.value, p);
    assert multiset(mid.payments)[p] == 0;
    assert multiset(db'.payments)[p] == 0;
  }

  // ---- initiatePayment ----

  predicate FirstIntent(intents: seq<Intent>, k: int, code: string) {
    0 <= k < |intents| && intents[k].code == code && forall j :: 0 <= j < k ==> intents[j].code != code
  }

  lemma IntentIndex(intents: seq<Intent>, code: string)
    ensures var i := IndexOf(intents, IntentCoded(code));
            && (i >= 0 ==> FirstIntent(intents, i, code)) && (forall k :: FirstIntent(intents, k, code) ==> k == i)
  {
    var i := IndexOf(intents, IntentCoded(code));
    forall j | 0 <= j < i ensures intents[j].code != code {
      assert !IntentCoded(code)(intents[j]);
    }
    forall k | FirstIntent(intents, k, code) ensures k == i {
      assert IntentCoded(code)(intents[k]);
    }
  }

  /** The passenger may pay for the intent now: it is their own, pending and not expired, on a stored trip. */
  predicate MayPay(db: Db, passenger: Option<Id>, intent: string, now: int, k: int) {
    && FirstIntent(db.intents, k, intent) && passenger == Some(db.intents[k].passenger)
    && db.intents[k].status == IntentPending && now < db.intents[k].expires && db.intents[k].trip in db.trips
  }

  /** Only the price of row k may have moved, and not upwards past its total. */
  predicate OnlyPriced(intents: seq<Intent>, intents': seq<Intent>, k: int) {
    && 0 <= k < |intents| && |intents'| == |intents|
    && (forall j :: 0 <= j < |intents| && j != k ==> intents'[j] == intents[j])
    && intents'[k] == intents[k].(discount := intents'[k].discount, paid := intents'[k].paid)
    && (intents'[k] != intents[k] ==>
          intents[k].coupon != "" && intents[k].discount == 0.0 < intents'[k].discount
          && intents'[k].paid == Max(intents[k].total - intents'[k].discount, 0.0))
  }

  /**
   * A payment row is added exactly for an intent the passenger may pay for, under a reference no row has; it asks for what the
   * intent costs. Nobody pays for another's intent. Only then may the coupon have been tried again.
   */
  lemma PaymentStarted(db: Db, passenger: Option<Id>, intent: string, reference: string, now: int,
                       coupons: map<string, Coupon>, gatewayOk: bool)
    ensures var (db', reply) := InitiatePayment(db, passenger, intent, reference, now, coupons, gatewayOk);
            && db' == db.(intents := db'.intents, payments := db'.payments)
            && (db' != db ==> exists k :: MayPay(db, passenger, intent, now, k) && OnlyPriced(db.intents, db'.intents, k))
            && (reply == OK || reply == Threw(GatewayDown) <==>
                  (exists k :: MayPay(db, passenger, intent, now, k)) && FreshIn(db.payments, reference))
            && (reply == OK || reply == Threw(GatewayDown) ==>
                  && (reply == OK <==> gatewayOk)
                  && forall k :: MayPay(db, passenger, intent, now, k) ==>
                       && k < |db'.intents|
                       && db'.payments == db.payments + [Payment(reference, intent, db'.intents[k].paid, Unpaid, None)])
            && (reply != OK && reply != Threw(GatewayDown) ==> db'.payments == db.payments)
  {
    hide LenientDiscount, Max;
    IntentIndex(db.intents, intent);
    ReferencesFree(db.payments, reference);
    var i := IndexOf(db.intents, IntentCoded(intent));
    if i >= 0 {
      var db' := InitiatePayment(db, passenger, intent, reference, now, coupons, gatewayOk).0;
      assert MayPay(db, passenger, intent, now, i) && db' != db ==> OnlyPriced(db.intents, db'.intents, i);
    }
  }

  /** The coupon is tried again only where it gave nothing before, and then gives what it gives now. */
  lemma RetriedCoupon(i: Intent, coupons: map<string, Coupon>, now: int)
    ensures var again := ApplyCoupon(coupons, i.coupon, i.total, now);
            Repriced(i, coupons, now) ==
              if i.coupon != "" && i.discount == 0.0 && again.Success? && again.value > 0.0
              then i.(discount := again.value, paid := if again.value <= i.total then i.total - again.value else 0.0) else i
  {
    hide ApplyCoupon;
  }

  predicate FreshIn(payments: seq<Payment>, reference: string) {
    forall j :: 0 <= j < |payments| ==> payments[j].txRef != reference
  }

  // ---- verifyPayment ----

  predicate FirstUnpaid(payments: seq<Payment>, p: int, reference: string) {
    && 0 <= p < |payments| && payments[p].txRef == reference && payments[p].status == Unpaid
    && forall j :: 0 <= j < p ==> !(payments[j].txRef == reference && payments[j].status == Unpaid)
  }

  lemma UnpaidIndex(payments: seq<Payment>, reference: string)
    ensures var i := IndexOf(payments, PendingRef(reference));
            && (i >= 0 ==> FirstUnpaid(payments, i, reference)) && (forall k :: FirstUnpaid(payments, k, reference) ==> k == i)
  {
    var i := IndexOf(payments, PendingRef(reference));
    forall j | 0 <= j < i ensures !(payments[j].txRef == reference && payments[j].status == Unpaid) {
      assert !PendingRef(reference)(payments[j]);
    }
    forall k | FirstUnpaid(payments, k, reference) ensures k == i {
      assert PendingRef(reference)(payments[k]);
    }
  }

  /** The booking carries over what the intent says, and is confirmed, paid, and not yet boarded. */
  predicate BookingOf(b: Booking, i: Intent, reference: string, token: string) {
    && b.code == i.code && b.trip == i.trip && b.passenger == i.passenger && b.seats == i.seats
    && b.total == i.total && b.paid == i.paid
    && b.status == Confirmed && b.payment == Paid && b.reference == Some(reference)
    && b.ticket == TicketPending && b.token == token && !b.cancelledByDriver && !b.refundFailed
  }

  /** The escrow holds the full fare less the fee, in percent, for the trip's driver; a discount is not the driver's loss. */
  predicate EscrowFor(e: Escrow, i: Intent, driver: Id, feePercent: real) {
    && e.booking == i.code && e.driver == driver && e.status == Held
    && e.net * 100.0 == i.total * (100.0 - feePercent)
  }

  /** Everything a confirmed payment of row p, for intent k, writes. */
  ghost predicate ConfirmedAs(db: Db, db': Db, p: nat, k: nat, reference: string, token: string, feePercent: real) {
    && p < |db.payments| && k < |db.intents| && db.intents[k].trip in db.trips
    && var i, n := db.intents[k], |db.bookings|;
       && |db'.bookings| == n + 1 && db'.bookings[..n] == db.bookings && BookingOf(db'.bookings[n], i, reference, token)
       && |db'.escrows| == |db.escrows| + 1 && db'.escrows[..|db.escrows|] == db.escrows
       && EscrowFor(db'.escrows[|db.escrows|], i, db.trips[i.trip].driver, feePercent)
       && db'.intents == db.intents[k := i.(status := Consumed)]
       && db'.payments == db.payments[p := db.payments[p].(status := Paid, booking := Some(i.code))]
       && db' == db.(bookings := db'.bookings, escrows := db'.escrows, intents := db'.intents, payments := db'.payments)
  }

  lemma FeeInPercent(total: real, feePercent: real)
    ensures NetFare(total, feePercent) * 100.0 == total * (100.0 - feePercent)
  {
    assert total * feePercent / 100.0 * 100.0 == total * feePercent;
    assert total * (100.0 - feePercent) == total * 100.0 - total * feePercent;
  }

  lemma ConfirmWrites(db: Db, p: nat, k: nat, reference: string, token: string, feePercent: real)
    requires p < |db.payments| && k < |db.intents| && db.intents[k].trip in db.trips
    ensures ConfirmedAs(db, Confirm(db, p, k, reference, token, feePercent), p, k, reference, token, feePercent)
  {
    hide NetFare;
    FeeInPercent(db.intents[k].total, feePercent);
  }

  /**
   * verifyPayment writes a booking only for a pending payment of a pending intent the gateway took enough for, and then exactly
   * what that intent says. Otherwise it at most marks the payment of a booking already made.
   */
  ghost predicate Verified(db: Db, db': Db, reply: Reply, reference: string, v: Verdict, token: string, feePercent: real) {
    if |db'.bookings| > |db.bookings| then
      reply == OK && exists p, k :: VerifiedBy(db, db', p, k, reference, v, token, feePercent)
    else
      || (db' == db && reply == NotVerified)
      || (reply == OK && exists p, j ::
            && FirstUnpaid(db.payments, p, reference)
            && 0 <= j < |db.bookings| && db.bookings[j].reference == Some(reference)
            && db' == db.(payments := db.payments[p := db.payments[p].(status := Paid, booking := Some(db.bookings[j].code))]))
  }

  ghost predicate VerifiedBy(db: Db, db': Db, p: int, k: int, reference: string, v: Verdict, token: string, feePercent: real) {
    && FirstUnpaid(db.payments, p, reference) && FirstIntent(db.intents, k, db.payments[p].intent)
    && db.intents[k].status == IntentPending && v.Answer? && v.ok && db.payments[p].amount <= v.amount
    && ConfirmedAs(db, db', p, k, reference, token, feePercent)
  }

  lemma VerifyWrites(db: Db, reference: string, v: Verdict, token: string, feePercent: real)
    ensures var (db', reply) := VerifyPayment(db, reference, v, token, feePercent);
            Verified(db, db', reply, reference, v, token, feePercent)
  {
    hide Confirm, ConfirmedAs;
    UnpaidIndex(db.payments, reference);
    var p := IndexOf(db.payments, PendingRef(reference));
    if p >= 0 {
      var i := IndexOf(db.intents, IntentCoded(db.payments[p].intent));
      IntentIndex(db.intents, db.payments[p].intent);
      if i >= 0 && db.intents[i].trip in db.trips {
        ConfirmWrites(db, p, i, reference, token, feePercent);
        SameBookings(db, p, i, reference, token, feePercent);
        var db' := VerifyPayment(db, reference, v, token, feePercent).0;
        assert |db'.bookings| > |db.bookings| ==> VerifiedBy(db, db', p, i, reference, v, token, feePercent);
      }
    }
  }

  lemma SameBookings(db: Db, p: nat, k: nat, reference: string, token: string, feePercent: real)
    requires p < |db.payments| && k < |db.intents| && db.intents[k].trip in db.trips
    ensures |Confirm(db, p, k, reference, token, feePercent).bookings| == |db.bookings| + 1
  {
  }
}
