/** When a payment confirms a booking, when a charge the gateway took is left with none, and how long an intent stays pending. */
module LedgerCharges {
  import opened Common
  import opened Tables
  import opened Ledger
  import opened LedgerPayments
  import LedgerBothWays
  import LedgerRuns
  import LedgerSeats
  import Money = LedgerMoney

  // ---- A booking's intent is consumed, so a pending intent's code is free ----

  predicate ConsumedAs(i: Intent, code: string) { i.code == code && i.status == Consumed }

  ghost predicate HasConsumed(intents: seq<Intent>, code: string) {
    exists i :: 0 <= i < |intents| && ConsumedAs(intents[i], code)
  }

  ghost predicate BookedOnce(intents: seq<Intent>, bookings: seq<Booking>) {
    forall j :: 0 <= j < |bookings| ==> HasConsumed(intents, bookings[j].code)
  }

  ghost predicate ChargeInv(db: Db) { PaymentInv(db) && LedgerSeats.HoldsOk(db) && BookedOnce(db.intents, db.bookings) }

  lemma RemovedStays(intents: seq<Intent>, i: nat, code: string)
    requires i < |intents| && intents[i].status == IntentPending && HasConsumed(intents, code)
    ensures HasConsumed(RemoveAt(intents, i), code)
  {
    var k :| 0 <= k < |intents| && ConsumedAs(intents[k], code);
    assert ConsumedAs(RemoveAt(intents, i)[if k < i then k else k - 1], code);
  }

  lemma AppendedStays(intents: seq<Intent>, row: Intent, code: string)
    requires HasConsumed(intents, code)
    ensures HasConsumed(intents + [row], code)
  {
    var k :| 0 <= k < |intents| && ConsumedAs(intents[k], code);
    assert ConsumedAs((intents + [row])[k], code);
  }

  lemma RewrittenStays(intents: seq<Intent>, i: nat, row: Intent, code: string)
    requires i < |intents| && row.code == intents[i].code && row.status in {intents[i].status, Consumed}
    requires HasConsumed(intents, code)
    ensures HasConsumed(intents[i := row], code)
  {
    var k :| 0 <= k < |intents| && ConsumedAs(intents[k], code);
    assert ConsumedAs(intents[i := row][k], code);
  }

  lemma ReleaseConsumed(db: Db, trip: Id, passenger: Id, code: string)
    requires HasConsumed(db.intents, code)
    ensures HasConsumed(ReleaseHold(db, trip, passenger).intents, code)
  {
    hide HasConsumed, Filter;
    var i := IndexOf(db.intents, PendingFor(trip, passenger));
    if i >= 0 {
      RemovedStays(db.intents, i, code);
    }
  }

  lemma BookConsumed(db: Db, o: Order, s: Setting, code: string)
    requires HasConsumed(db.intents, code)
    ensures HasConsumed(BookTrip(db, o, s).0.intents, code)
  {
    hide BookTrip, ReleaseHold, HasConsumed;
    LedgerSeats.BookOutcomes(db, o, s);
    var db' := BookTrip(db, o, s).0;
    if db' != db {
      var freed := ReleaseHold(db, o.trip, o.passenger.value);
      ReleaseConsumed(db, o.trip, o.passenger.value, code);
      if db' != freed {
        var quote :| LedgerSeats.Holds(db', freed, o, o.passenger.value, quote, s.now);
        var held := HoldSeats(freed, o, o.passenger.value, quote, s.now);
        assert db'.intents == held.intents;
        AppendedStays(freed.intents, held.intents[|freed.intents|], code);
      }
    }
  }

  lemma PayConsumed(db: Db, passenger: Option<Id>, intent: string, reference: string, now: int,
                    coupons: map<string, Pricing.Coupon>, gatewayOk: bool, code: string)
    requires HasConsumed(db.intents, code)
    ensures HasConsumed(InitiatePayment(db, passenger, intent, reference, now, coupons, gatewayOk).0.intents, code)
  {
    hide HasConsumed, LenientDiscount;
    var i := IndexOf(db.intents, IntentCoded(intent));
    if i >= 0 {
      RewrittenStays(db.intents, i, Repriced(db.intents[i], coupons, now), code);
    }
  }

  lemma VerifyConsumed(db: Db, reference: string, v: Verdict, token: string, feePercent: real, code: string)
    requires HasConsumed(db.intents, code)
    ensures HasConsumed(VerifyPayment(db, reference, v, token, feePercent).0.intents, code)
  {
    hide HasConsumed;
    var intents' := VerifyPayment(db, reference, v, token, feePercent).0.intents;
    if intents' != db.intents {
      var i := IndexOf(db.intents, IntentCoded(db.payments[IndexOf(db.payments, PendingRef(reference))].intent));
      RewrittenStays(db.intents, i, db.intents[i].(status := Consumed), code);
    }
  }

  /** Once consumed, an intent stays stored and consumed. */
  lemma StepConsumed(db: Db, c: Call, code: string)
    requires HasConsumed(db.intents, code)
    ensures HasConsumed(Step(db, c).0.intents, code)
  {
    hide CreateTrip, Advance, SetBookingStatus, UpdateTrip, ReviseTrip;
    hide CompleteTrip, CancelTrip, WithdrawTrip, SettleTrip;
    hide BookTrip, InitiatePayment, VerifyPayment, Board, CancelBooking, HasConsumed;
    match c
    case Book(o, s) => BookConsumed(db, o, s, code);
    case Pay(p, i, r, now, coupons, ok) => PayConsumed(db, p, i, r, now, coupons, ok, code);
    case Verify(r, v, tok, fee) => VerifyConsumed(db, r, v, tok, fee, code);
    case _ => OtherKeeps(db, c);
  }

  lemma NewBookingConsumed(db: Db, reference: string, v: Verdict, token: string, feePercent: real)
    ensures var db' := VerifyPayment(db, reference, v, token, feePercent).0;
            |db'.bookings| > |db.bookings| ==> HasConsumed(db'.intents, db'.bookings[|db.bookings|].code)
  {
    var db' := VerifyPayment(db, reference, v, token, feePercent).0;
    if |db'.bookings| > |db.bookings| {
      var i := IndexOf(db.intents, IntentCoded(db.payments[IndexOf(db.payments, PendingRef(reference))].intent));
      assert ConsumedAs(db'.intents[i], db'.bookings[|db.bookings|].code);
    }
  }

  lemma StepBookedOnce(db: Db, c: Call)
    requires BookedOnce(db.intents, db.bookings)
    ensures BookedOnce(Step(db, c).0.intents, Step(db, c).0.bookings)
  {
    hide CreateTrip, Advance, SetBookingStatus, UpdateTrip, ReviseTrip;
    hide CompleteTrip, CancelTrip, WithdrawTrip, SettleTrip;
    hide BookTrip, InitiatePayment, VerifyPayment, Board, CancelBooking, HasConsumed;
    var db' := Step(db, c).0;
    if c.Verify? {
      LedgerBothWays.VerifyAppends(db, c.reference, c.verdict, c.newToken, c.feePercent);
      NewBookingConsumed(db, c.reference, c.verdict, c.newToken, c.feePercent);
    } else {
      Money.NoNewRow(db, c);
    }
    forall j | 0 <= j < |db'.bookings| ensures HasConsumed(db'.intents, db'.bookings[j].code) {
      if j < |db.bookings| {
        PaidStays(db, c, j);
        StepConsumed(db, c, db.bookings[j].code);
      }
    }
  }

  lemma {:induction false} RunKeepsCharges(start: map<Id, real>, calls: seq<Call>)
    ensures ChargeInv(Run(Fresh(start), calls))
  {
    hide Step, PaymentInv, LedgerSeats.HoldsOk;
    RunKeepsPayments(start, calls);
    LedgerRuns.OneHoldAlways(start, calls);
    if calls != [] {
      RunKeepsCharges(start, calls[..|calls| - 1]);
      StepBookedOnce(Run(Fresh(start), calls[..|calls| - 1]), calls[|calls| - 1]);
    }
  }

  // ---- Which charges lead to no booking ----

  /** No pending payment has the reference, or a booking was made with it, or its intent is no longer pending, or it fell short. */
  predicate Unclaimable(db: Db, reference: string, amount: real) {
    var p := IndexOf(db.payments, PendingRef(reference));
    || p < 0
    || IndexOf(db.bookings, PaidBy(reference)) >= 0
    || amount < db.payments[p].amount
    || var i := IndexOf(db.intents, IntentCoded(db.payments[p].intent)); i >= 0 && db.intents[i].status != IntentPending
  }

  lemma CodeIsFree(intents: seq<Intent>, bookings: seq<Booking>, i: nat)
    requires DistinctIntents(intents) && BookedOnce(intents, bookings) && i < |intents| && intents[i].status == IntentPending
    ensures IndexOf(bookings, Coded(intents[i].code)) < 0
  {
    forall j | 0 <= j < |bookings| ensures !Coded(intents[i].code)(bookings[j]) {
      var k :| 0 <= k < |intents| && ConsumedAs(intents[k], bookings[j].code);
      assert i != k;
      assert intents[if i < k then i else k].code != intents[if i < k then k else i].code;
    }
  }

  lemma ConfirmsUnless(db: Db, reference: string, amount: real)
    requires ChargeInv(db)
    ensures Confirms(db, reference, Answer(true, amount)) <==> !Unclaimable(db, reference, amount)
  {
    var p := IndexOf(db.payments, PendingRef(reference));
    if p >= 0 {
      assert db.payments[p] in db.payments;
      IntentCovered(db.intents, db.payments[p]);
      var i := IndexOf(db.intents, IntentCoded(db.payments[p].intent));
      if db.intents[i].status == IntentPending {
        CodeIsFree(db.intents, db.bookings, i);
      }
    }
  }

  lemma VerifyWrites(db: Db, reference: string, v: Verdict, token: string, feePercent: real)
    ensures |VerifyPayment(db, reference, v, token, feePercent).0.bookings| > |db.bookings| <==> Confirms(db, reference, v)
  {
  }

  /**
   * After every run: a payment the gateway confirms writes no booking exactly when its pending row is gone, a booking was
   * already made with it, its intent is no longer pending, or it fell short. The other guards never stand in the way.
   */
  lemma ChargeWithoutBooking(start: map<Id, real>, calls: seq<Call>, reference: string, amount: real, token: string, feePercent: real)
    ensures var db := Run(Fresh(start), calls);
            |VerifyPayment(db, reference, Answer(true, amount), token, feePercent).0.bookings| <= |db.bookings|
            <==> Unclaimable(db, reference, amount)
  {
    hide Run, VerifyPayment, Confirms, Unclaimable, ChargeInv;
    var db := Run(Fresh(start), calls);
    RunKeepsCharges(start, calls);
    ConfirmsUnless(db, reference, amount);
    VerifyWrites(db, reference, Answer(true, amount), token, feePercent);
  }

  // ---- A dropped payment row stays dropped ----

  ghost predicate NoPending(db: Db, reference: string) {
    forall k :: 0 <= k < |db.payments| ==> !PendingRef(reference)(db.payments[k])
  }

  /** The call makes a payment row under the reference; the source generates a fresh one every time. */
  predicate Reuses(c: Call, reference: string) {
    (c.Book? && c.order.reference == reference) || (c.Pay? && c.reference == reference)
  }

  lemma ReleaseNoPending(db: Db, trip: Id, passenger: Id, reference: string)
    requires NoPending(db, reference)
    ensures NoPending(ReleaseHold(db, trip, passenger), reference)
  {
    var payments' := ReleaseHold(db, trip, passenger).payments;
    forall k | 0 <= k < |payments'| ensures !PendingRef(reference)(payments'[k]) {
      assert payments'[k] in payments';
    }
  }

  lemma StageNoPending(freed: Db, before: Trip, o: Order, s: Setting, reference: string)
    requires NoPending(freed, reference) && o.passenger.Some? && o.trip in freed.trips && o.reference != reference
    ensures NoPending(Ledger.Stage(freed, before, o, s).0, reference)
  {
    hide Pricing.QuoteOrder;
  }

  lemma BookNoPending(db: Db, o: Order, s: Setting, reference: string)
    requires NoPending(db, reference) && o.reference != reference
    ensures NoPending(BookTrip(db, o, s).0, reference)
  {
    hide ReleaseHold, Ledger.Stage, NoPending;
    if o.trip in db.trips && o.passenger.Some? {
      var freed := ReleaseHold(db, o.trip, o.passenger.value);
      ReleaseNoPending(db, o.trip, o.passenger.value, reference);
      LedgerSeats.ReleaseColumns(db, o.trip, o.passenger.value);
      StageNoPending(freed, db.trips[o.trip], o, s, reference);
    }
  }

  lemma PaymentNoPending(db: Db, c: Call, reference: string)
    requires NoPending(db, reference) && !Reuses(c, reference) && (c.Pay? || c.Verify?)
    ensures NoPending(Step(db, c).0, reference)
  {
    hide CreateTrip, Advance, SetBookingStatus, UpdateTrip, ReviseTrip;
    hide CompleteTrip, CancelTrip, WithdrawTrip, SettleTrip;
    hide BookTrip, Board, CancelBooking, Repriced;
  }

  lemma StepNoPending(db: Db, c: Call, reference: string)
    requires NoPending(db, reference) && !Reuses(c, reference)
    ensures NoPending(Step(db, c).0, reference)
  {
    hide CreateTrip, Advance, SetBookingStatus, UpdateTrip, ReviseTrip;
    hide CompleteTrip, CancelTrip, WithdrawTrip, SettleTrip;
    hide BookTrip, InitiatePayment, VerifyPayment, Board, CancelBooking;
    match c
    case Book(o, s) => BookNoPending(db, o, s, reference);
    case Pay(_, _, _, _, _, _) => PaymentNoPending(db, c, reference);
    case Verify(_, _, _, _) => PaymentNoPending(db, c, reference);
    case _ => OtherKeeps(db, c);
  }

  lemma NeverVerified(db: Db, reference: string, v: Verdict, token: string, feePercent: real)
    requires NoPending(db, reference)
    ensures VerifyPayment(db, reference, v, token, feePercent) == (db, NotVerified)
  {
  }

  lemma {:induction false} StaysDropped(db: Db, calls: seq<Call>, reference: string)
    requires NoPending(db, reference) && forall k :: 0 <= k < |calls| ==> !Reuses(calls[k], reference)
    ensures NoPending(Run(db, calls), reference)
  {
    hide Step, NoPending;
    if calls != [] {
      StaysDropped(db, calls[..|calls| - 1], reference);
      StepNoPending(Run(db, calls[..|calls| - 1]), calls[|calls| - 1], reference);
    }
  }

  /** Once no pending row has the reference, no later verification of it does anything, as long as the reference is not used again. */
  lemma DroppedForGood(db: Db, calls: seq<Call>, reference: string, v: Verdict, token: string, feePercent: real)
    requires NoPending(db, reference) && forall k :: 0 <= k < |calls| ==> !Reuses(calls[k], reference)
    ensures VerifyPayment(Run(db, calls), reference, v, token, feePercent) == (Run(db, calls), NotVerified)
  {
    hide Run, NoPending, VerifyPayment;
    StaysDropped(db, calls, reference);
    NeverVerified(Run(db, calls), reference, v, token, feePercent);
  }

  // ---- How long an intent stays pending ----

  predicate PendingAs(i: Intent, code: string, trip: Id, passenger: Id) {
    i.code == code && i.trip == trip && i.passenger == passenger && i.status == IntentPending
  }

  ghost predicate StillPending(intents: seq<Intent>, code: string, trip: Id, passenger: Id) {
    exists i :: 0 <= i < |intents| && PendingAs(intents[i], code, trip, passenger)
  }

  /** The call confirms the payment of the intent. */
  predicate Consumes(db: Db, c: Call, code: string) {
    && c.Verify? && Confirms(db, c.reference, c.verdict)
    && db.payments[IndexOf(db.payments, PendingRef(c.reference))].intent == code
  }

  /** The passenger books the same trip again. */
  predicate Rebooks(c: Call, trip: Id, passenger: Id) {
    c.Book? && c.order.trip == trip && c.order.passenger == Some(passenger)
  }

  lemma ReleasePending(db: Db, order: Id, rider: Id, code: string, trip: Id, passenger: Id)
    requires StillPending(db.intents, code, trip, passenger) && (order != trip || rider != passenger)
    ensures StillPending(ReleaseHold(db, order, rider).intents, code, trip, passenger)
  {
    hide Filter;
    var i := IndexOf(db.intents, PendingFor(order, rider));
    var k :| 0 <= k < |db.intents| && PendingAs(db.intents[k], code, trip, passenger);
    if i >= 0 {
      assert PendingAs(RemoveAt(db.intents, i)[if k < i then k else k - 1], code, trip, passenger);
    }
  }

  lemma AppendPending(intents: seq<Intent>, row: Intent, code: string, trip: Id, passenger: Id)
    requires StillPending(intents, code, trip, passenger)
    ensures StillPending(intents + [row], code, trip, passenger)
  {
    var k :| 0 <= k < |intents| && PendingAs(intents[k], code, trip, passenger);
    assert PendingAs((intents + [row])[k], code, trip, passenger);
  }

  lemma BookPending(db: Db, o: Order, s: Setting, code: string, trip: Id, passenger: Id)
    requires StillPending(db.intents, code, trip, passenger) && !(o.trip == trip && o.passenger == Some(passenger))
    ensures StillPending(BookTrip(db, o, s).0.intents, code, trip, passenger)
  {
    hide BookTrip, ReleaseHold, StillPending;
    LedgerSeats.BookOutcomes(db, o, s);
    var db' := BookTrip(db, o, s).0;
    if db' != db {
      var freed := ReleaseHold(db, o.trip, o.passenger.value);
      ReleasePending(db, o.trip, o.passenger.value, code, trip, passenger);
      if db' != freed {
        var quote :| LedgerSeats.Holds(db', freed, o, o.passenger.value, quote, s.now);
        var held := HoldSeats(freed, o, o.passenger.value, quote, s.now);
        assert db'.intents == held.intents;
        AppendPending(freed.intents, held.intents[|freed.intents|], code, trip, passenger);
      }
    }
  }

  lemma PayPending(db: Db, c: Call, code: string, trip: Id, passenger: Id)
    requires c.Pay? && StillPending(db.intents, code, trip, passenger)
    ensures StillPending(Step(db, c).0.intents, code, trip, passenger)
  {
    hide CreateTrip, Advance, SetBookingStatus, UpdateTrip, ReviseTrip;
    hide CompleteTrip, CancelTrip, WithdrawTrip, SettleTrip;
    hide BookTrip, VerifyPayment, Board, CancelBooking, LenientDiscount;
    var k :| 0 <= k < |db.intents| && PendingAs(db.intents[k], code, trip, passenger);
    assert PendingAs(Step(db, c).0.intents[k], code, trip, passenger);
  }

  lemma VerifyPending(db: Db, c: Call, code: string, trip: Id, passenger: Id)
    requires c.Verify? && DistinctIntents(db.intents) && StillPending(db.intents, code, trip, passenger)
    ensures StillPending(Step(db, c).0.intents, code, trip, passenger) <==> !Consumes(db, c, code)
  {
    hide CreateTrip, Advance, SetBookingStatus, UpdateTrip, ReviseTrip;
    hide CompleteTrip, CancelTrip, WithdrawTrip, SettleTrip;
    hide BookTrip, InitiatePayment, Board, CancelBooking;
    var intents' := Step(db, c).0.intents;
    var k :| 0 <= k < |db.intents| && PendingAs(db.intents[k], code, trip, passenger);
    forall j | 0 <= j < |db.intents| && db.intents[j].code == code ensures j == k {
      assert db.intents[if j < k then j else k].code == db.intents[if j < k then k else j].code;
    }
    if Consumes(db, c, code) {
      forall j | 0 <= j < |intents'| ensures !PendingAs(intents'[j], code, trip, passenger) {
        assert intents'[j].code == db.intents[j].code;
      }
    } else {
      assert PendingAs(intents'[k], code, trip, passenger);
    }
  }

  /**
   * Whatever the clock shows, a pending intent keeps its seats until its own passenger books the trip again or its payment is
   * confirmed: no call looks at the thirty minutes it was given, but the one that starts another payment.
   */
  lemma StepEndsPending(db: Db, c: Call, code: string, trip: Id, passenger: Id)
    requires DistinctIntents(db.intents) && StillPending(db.intents, code, trip, passenger) && !Rebooks(c, trip, passenger)
    ensures StillPending(Step(db, c).0.intents, code, trip, passenger) <==> !Consumes(db, c, code)
  {
    hide CreateTrip, Advance, SetBookingStatus, UpdateTrip, ReviseTrip;
    hide CompleteTrip, CancelTrip, WithdrawTrip, SettleTrip;
    hide BookTrip, InitiatePayment, VerifyPayment, Board, CancelBooking, StillPending;
    match c
    case Book(o, s) => BookPending(db, o, s, code, trip, passenger);
    case Pay(_, _, _, _, _, _) => PayPending(db, c, code, trip, passenger);
    case Verify(_, _, _, _) => VerifyPending(db, c, code, trip, passenger);
    case _ => OtherKeeps(db, c);
  }

  /** The call ends the intent's wait. */
  predicate Ends(db: Db, c: Call, code: string, trip: Id, passenger: Id) {
    Rebooks(c, trip, passenger) || Consumes(db, c, code)
  }

  /** Over every continuation without such a call the intent is still pending, and so still holds its seats. */
  lemma {:induction false} PendingForEver(start: map<Id, real>, before: seq<Call>, calls: seq<Call>,
                                          code: string, trip: Id, passenger: Id)
    requires StillPending(Run(Fresh(start), before).intents, code, trip, passenger)
    requires forall k :: 0 <= k < |calls| ==> !Ends(Run(Fresh(start), before + calls[..k]), calls[k], code, trip, passenger)
    ensures StillPending(Run(Fresh(start), before + calls).intents, code, trip, passenger)
  {
    hide Step, StillPending, Consumes, Rebooks;
    if calls == [] {
      assert before + calls == before;
    } else {
      var n := |calls| - 1;
      var earlier := calls[..n];
      forall k | 0 <= k < |earlier|
        ensures !Ends(Run(Fresh(start), before + earlier[..k]), earlier[k], code, trip, passenger)
      {
        assert earlier[..k] == calls[..k];
      }
      PendingForEver(start, before, earlier, code, trip, passenger);
      RunKeepsPayments(start, before + earlier);
      var db := Run(Fresh(start), before + earlier);
      StepEndsPending(db, calls[n], code, trip, passenger);
      assert (before + calls)[..|before + calls| - 1] == before + earlier;
    }
  }
}
